/** The optional value the components keep in their state: a selected date or
    booking, a draft being edited, or a key that local storage may not hold. */
module Opt {

  datatype Option<+T> = None | Some(value: T) {

    /** The value, or `default` for None (JavaScript's `x ?? default`). */
    function GetOr(default: T): (r: T)
      ensures Some? ==> r == value
      ensures None? ==> r == default
    {
      if Some? then value else default
    }
  }
}
