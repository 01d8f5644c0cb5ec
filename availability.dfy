/** The availability panel: one record per calendar day (available, booked or
    blocked), seeded with two booked mock days, edited through a draft dialog,
    blocked over a day range, and written to the "photographer_availability"
    store without the mock entries. Dates are day numbers. */
module Availability {
  import opened Opt
  import opened Seqs
  import Text

  datatype SlotStatus = Available | Booked | Blocked

  /** What the calendar asks for a day: the status of its slot, or "unavailable". */
  datatype DateStatus = Unavailable | Has(status: SlotStatus)

  datatype TimeSlot = TimeSlot(start: string, end: string)

  datatype BookingInfo = BookingInfo(clientName: string, eventType: string, package: string)

  datatype Slot = Slot(
    id: string,
    date: int,
    status: SlotStatus,
    timeSlots: seq<TimeSlot>,
    notes: Option<string>,
    bookingInfo: Option<BookingInfo>)

  function OnDay(d: int): Slot -> bool
  {
    (s: Slot) => s.date == d
  }

  function HasId(id: string): Slot -> bool
  {
    (s: Slot) => s.id == id
  }

  function LacksId(id: string): Slot -> bool
  {
    (s: Slot) => s.id != id
  }

  function IsBooked(s: Slot): bool
  {
    s.status == Booked
  }

  function SlotDate(s: Slot): int
  {
    s.date
  }

  /** The ids of the seeded bookings. */
  const MockIds: set<string> := {"1", "2"}

  /** The two seeded bookings, three and seven days after `today`. */
  function MockBookings(today: int): (r: seq<Slot>)
    ensures forall m :: m in r ==> m.id in MockIds && m.status == Booked
    ensures |r| == 2 && r[0].date == today + 3 && r[1].date == today + 7
  {
    [ Slot("1", today + 3, Booked, [TimeSlot("10:00", "18:00")], None,
           Some(BookingInfo("Sarah & Mike", "Wedding", "Wedding Premium"))),
      Slot("2", today + 7, Booked, [TimeSlot("14:00", "17:00")], None,
           Some(BookingInfo("Johnson Family", "Family Portrait", "Portrait Session"))) ]
  }

  function NotMock(): Slot -> bool
  {
    (s: Slot) => s.id !in MockIds
  }

  /** The list `saveAvailability` writes: every slot whose id is not a mock id. */
  function WithoutMocks(slots: seq<Slot>): (r: seq<Slot>)
    ensures forall x :: x in r <==> x in slots && x.id !in MockIds
  {
    Filter(slots, NotMock())
  }

  /** The store keeps each non-mock slot as often as the list holds it. */
  lemma WithoutMocksCount(slots: seq<Slot>, x: Slot)
    ensures multiset(WithoutMocks(slots))[x] == if x.id in MockIds then 0 else multiset(slots)[x]
  {
    FilterCount(slots, NotMock(), x);
  }

  /** Loading puts the mock bookings after the saved slots; saving drops them
      again, so a store without mock ids reads back as it was written. */
  lemma SaveAfterLoad(saved: seq<Slot>, today: int)
    requires forall x :: x in saved ==> x.id !in MockIds
    ensures WithoutMocks(saved + MockBookings(today)) == saved
  {
    FilterAppend(saved, MockBookings(today), NotMock());
    FilterAll(saved, NotMock());
    FilterNone(MockBookings(today), NotMock());
  }

  /** `getDateStatus(d)`: the status of the first slot dated `d`. */
  function StatusOn(slots: seq<Slot>, d: int): (r: DateStatus)
    ensures r == Unavailable <==> forall x :: x in slots ==> x.date != d
    ensures r.Has? ==> exists i :: 0 <= i < |slots| && slots[i].date == d && slots[i].status == r.status
                                  && forall j :: 0 <= j < i ==> slots[j].date != d
  {
    var k := FindIndex(slots, OnDay(d));
    if k < |slots| then Has(slots[k].status) else Unavailable
  }

  lemma StatusOnIsFind(slots: seq<Slot>, d: int)
    ensures StatusOn(slots, d) == match Find(slots, OnDay(d))
                                  case None => Unavailable
                                  case Some(x) => Has(x.status)
  {
  }

  /** The draft `createAvailabilitySlot` opens for the selected date, nothing
      when no date is selected. */
  function NewDraft(selected: Option<int>, newId: string): (r: Option<Slot>)
    ensures selected.None? <==> r.None?
    ensures r.Some? ==> r.value.id == newId && r.value.date == selected.value
                        && r.value.status == Available && r.value.notes == Some("")
                        && r.value.timeSlots == [TimeSlot("09:00", "17:00")]
                        && r.value.bookingInfo.None?
  {
    match selected
    case None => None
    case Some(d) => Some(Slot(newId, d, Available, [TimeSlot("09:00", "17:00")], Some(""), None))
  }

  /** `saveSlot`'s new list: the draft replaces every slot with its id, or is
      appended when there is none. */
  function UpsertSlot(slots: seq<Slot>, draft: Slot): (r: seq<Slot>)
    ensures (exists i :: 0 <= i < |slots| && slots[i].id == draft.id) ==>
              |r| == |slots| && forall i :: 0 <= i < |slots| ==> r[i] == if slots[i].id == draft.id then draft else slots[i]
    ensures (forall i :: 0 <= i < |slots| ==> slots[i].id != draft.id) ==> r == slots + [draft] && |r| == |slots| + 1
  {
    Upsert(slots, draft, HasId(draft.id))
  }

  /** After saving a draft, looking its id up finds the draft, and the slots
      with other ids are those of before, in order. */
  lemma UpsertSlotFinds(slots: seq<Slot>, draft: Slot)
    ensures Find(UpsertSlot(slots, draft), HasId(draft.id)) == Some(draft)
    ensures Filter(UpsertSlot(slots, draft), LacksId(draft.id)) == Filter(slots, LacksId(draft.id))
  {
    UpsertFinds(slots, draft, HasId(draft.id));
    UpsertKeepsOthers(slots, draft, HasId(draft.id), LacksId(draft.id));
  }

  /** `deleteSlot` refuses when the first slot with that id is booked. */
  predicate DeleteRefused(slots: seq<Slot>, id: string)
  {
    var found := Find(slots, HasId(id));
    found.Some? && found.value.status == Booked
  }

  /** The slots left after deleting `id`: every slot with another id, each as
      often as before. */
  function RemoveId(slots: seq<Slot>, id: string): (r: seq<Slot>)
    ensures forall x :: x in r <==> x in slots && x.id != id
  {
    Filter(slots, LacksId(id))
  }

  /** Deleting keeps each slot of another id as often as before, and changes
      nothing when no slot has that id. */
  lemma RemoveIdKeeps(slots: seq<Slot>, id: string, x: Slot)
    ensures multiset(RemoveId(slots, id))[x] == if x.id == id then 0 else multiset(slots)[x]
    ensures (forall y :: y in slots ==> y.id != id) ==> RemoveId(slots, id) == slots
  {
    FilterCount(slots, LacksId(id), x);
    if forall y :: y in slots ==> y.id != id {
      FilterAll(slots, LacksId(id));
    }
  }

  /** Deleting keeps the order of what remains: the slots left of two lists
      joined are the slots left of each, joined, and a single slot stays
      exactly when it has another id. */
  lemma RemoveIdInOrder(a: seq<Slot>, b: seq<Slot>, id: string, x: Slot)
    ensures RemoveId(a + b, id) == RemoveId(a, id) + RemoveId(b, id)
    ensures RemoveId([x], id) == if x.id == id then [] else [x]
  {
    FilterAppend(a, b, LacksId(id));
    assert [x][1..] == [];
  }

  /** A refused delete is exactly one where a booked slot is the first with
      that id; otherwise nothing with that id is left. */
  lemma DeleteGuard(slots: seq<Slot>, id: string)
    ensures DeleteRefused(slots, id) <==>
              exists i :: 0 <= i < |slots| && slots[i].id == id && slots[i].status == Booked
                          && forall j :: 0 <= j < i ==> slots[j].id != id
  {
    var k := FindIndex(slots, HasId(id));
    if exists i :: 0 <= i < |slots| && slots[i].id == id && slots[i].status == Booked
                   && forall j :: 0 <= j < i ==> slots[j].id != id {
      var i :| 0 <= i < |slots| && slots[i].id == id && slots[i].status == Booked
               && forall j :: 0 <= j < i ==> slots[j].id != id;
      FindIndexIs(slots, HasId(id), i);
    }
  }

  // ---- blockDateRange ----

  function BlockId(d: int): string
  {
    "block_" + Text.IntToString(d)
  }

  /** The slot that blocks day `d`. */
  function BlockedSlot(d: int): Slot
  {
    Slot(BlockId(d), d, Blocked, [], Some("Blocked period"), None)
  }

  /** A day the range may block: its first slot, if any, is not booked. */
  predicate Blockable(slots: seq<Slot>, d: int)
  {
    var existing := Find(slots, OnDay(d));
    existing.None? || existing.value.status != Booked
  }

  /** A blockable day is one `getDateStatus` does not report as booked. */
  lemma BlockableIsNotBooked(slots: seq<Slot>, d: int)
    ensures Blockable(slots, d) <==> StatusOn(slots, d) != Has(Booked)
  {
    StatusOnIsFind(slots, d);
  }

  /** The slots `blockDateRange(s, e)` collects, day by day from `s` to `e`. */
  function BlockSlots(slots: seq<Slot>, s: int, e: int): seq<Slot>
    decreases if e < s then 0 else e - s + 1
  {
    if e < s then []
    else BlockSlots(slots, s, e - 1) + (if Blockable(slots, e) then [BlockedSlot(e)] else [])
  }

  /** A slot gives way to the new blocks when one of them shares its day and it
      is not booked. */
  predicate Displaced(x: Slot, blocks: seq<Slot>)
  {
    x.status != Booked && exists b :: b in blocks && b.date == x.date
  }

  function Survives(blocks: seq<Slot>): Slot -> bool
  {
    (x: Slot) => !Displaced(x, blocks)
  }

  /** The list `blockDateRange` saves: the slots that survive, then the blocks. */
  function MergeBlocks(slots: seq<Slot>, blocks: seq<Slot>): seq<Slot>
  {
    Filter(slots, Survives(blocks)) + blocks
  }

  /** Each collected slot is the blocked slot of a blockable day in `[s, e]`. */
  lemma {:induction false} BlockSlotsAre(slots: seq<Slot>, s: int, e: int)
    ensures forall x :: x in BlockSlots(slots, s, e) ==>
              x == BlockedSlot(x.date) && s <= x.date <= e && Blockable(slots, x.date)
    decreases if e < s then 0 else e - s + 1
  {
    if s <= e {
      BlockSlotsAre(slots, s, e - 1);
      var prev := BlockSlots(slots, s, e - 1);
      var tail: seq<Slot> := if Blockable(slots, e) then [BlockedSlot(e)] else [];
      assert BlockSlots(slots, s, e) == prev + tail;
      forall x | x in prev + tail
        ensures x == BlockedSlot(x.date) && s <= x.date <= e && Blockable(slots, x.date)
      {
        if x !in prev {
          assert x in tail;
        }
      }
    }
  }

  /** Every blockable day of `[s, e]` gets its blocked slot. */
  lemma {:induction false} BlockSlotsCover(slots: seq<Slot>, s: int, e: int)
    ensures forall d :: s <= d <= e && Blockable(slots, d) ==> BlockedSlot(d) in BlockSlots(slots, s, e)
    decreases if e < s then 0 else e - s + 1
  {
    if s <= e {
      BlockSlotsCover(slots, s, e - 1);
    }
  }

  /** The collected slots come in strictly increasing day order, so no day is
      blocked twice. */
  lemma {:induction false} BlockSlotsOrdered(slots: seq<Slot>, s: int, e: int)
    ensures forall i, j :: 0 <= i < j < |BlockSlots(slots, s, e)| ==>
              BlockSlots(slots, s, e)[i].date < BlockSlots(slots, s, e)[j].date
    decreases if e < s then 0 else e - s + 1
  {
    if s <= e {
      BlockSlotsOrdered(slots, s, e - 1);
      BlockSlotsAre(slots, s, e - 1);
      var prev := BlockSlots(slots, s, e - 1);
      var r := BlockSlots(slots, s, e);
      assert forall i :: 0 <= i < |prev| ==> prev[i] in prev && r[i] == prev[i];
    }
  }

  /** The days of `[s, e]` a range block may block. */
  function FreeDays(slots: seq<Slot>, s: int, e: int): set<int>
  {
    set d | s <= d <= e && Blockable(slots, d)
  }

  /** The count `blockDateRange` reports is the number of days in the range
      whose first slot is not booked. */
  lemma {:induction false} BlockCount(slots: seq<Slot>, s: int, e: int)
    ensures |BlockSlots(slots, s, e)| == |FreeDays(slots, s, e)|
    decreases if e < s then 0 else e - s + 1
  {
    if e < s {
      assert FreeDays(slots, s, e) == {};
    } else {
      BlockCount(slots, s, e - 1);
      var prev := FreeDays(slots, s, e - 1);
      assert e !in prev;
      if Blockable(slots, e) {
        assert FreeDays(slots, s, e) == prev + {e};
      } else {
        assert FreeDays(slots, s, e) == prev;
      }
    }
  }

  /** An empty or reversed range collects nothing and leaves the list as it was. */
  lemma EmptyRange(slots: seq<Slot>, s: int, e: int)
    requires e < s
    ensures BlockSlots(slots, s, e) == []
    ensures MergeBlocks(slots, BlockSlots(slots, s, e)) == slots
  {
    FilterAll(slots, Survives([]));
  }

  /** A range block removes no booked slot: the booked slots after it are the
      booked slots before it, in the same order. */
  lemma BlockKeepsBookings(slots: seq<Slot>, s: int, e: int)
    ensures Filter(MergeBlocks(slots, BlockSlots(slots, s, e)), IsBooked) == Filter(slots, IsBooked)
  {
    var blocks := BlockSlots(slots, s, e);
    BlockSlotsAre(slots, s, e);
    FilterAppend(Filter(slots, Survives(blocks)), blocks, IsBooked);
    assert forall x :: x in slots && IsBooked(x) ==> Survives(blocks)(x);
    FilterFilter(slots, Survives(blocks), IsBooked);
    FilterNone(blocks, IsBooked);
  }

  /** After blocking `[s, e]`, a day of the range reads "booked" when a booked
      slot held it and "blocked" otherwise; every other day reads as before. */
  lemma StatusAfterBlock(slots: seq<Slot>, s: int, e: int, d: int)
    ensures StatusOn(MergeBlocks(slots, BlockSlots(slots, s, e)), d) ==
              if d < s || e < d then StatusOn(slots, d)
              else if exists x :: x in slots && x.date == d && x.status == Booked then Has(Booked)
              else Has(Blocked)
  {
    var blocks := BlockSlots(slots, s, e);
    var kept := Filter(slots, Survives(blocks));
    BlockSlotsAre(slots, s, e);
    BlockSlotsCover(slots, s, e);
    StatusOnIsFind(MergeBlocks(slots, blocks), d);
    StatusOnIsFind(slots, d);
    FindAppend(kept, blocks, OnDay(d));
    if d < s || e < d || !Blockable(slots, d) {
      // no block carries day d, so no slot of day d gives way
      assert forall b :: b in blocks ==> b.date != d;
      FindFilter(slots, Survives(blocks), OnDay(d));
    } else {
      assert BlockedSlot(d) in blocks;
      if exists x :: x in slots && x.date == d && x.status == Booked {
        var x :| x in slots && x.date == d && x.status == Booked;
        assert x in kept;
      } else {
        assert forall x :: x in kept ==> x.date != d;
      }
    }
  }

  /** Every block is written to the store: no block id is a mock id. */
  lemma BlocksArePersisted(slots: seq<Slot>, s: int, e: int)
    ensures forall b :: b in BlockSlots(slots, s, e) ==> b in WithoutMocks(MergeBlocks(slots, BlockSlots(slots, s, e)))
  {
    BlockSlotsAre(slots, s, e);
    var merged := MergeBlocks(slots, BlockSlots(slots, s, e));
    forall b | b in BlockSlots(slots, s, e)
      ensures b in WithoutMocks(merged)
    {
      assert b.id[0] == 'b';
      assert b in merged;
    }
  }

  // ---- upcomingBookings ----

  function IsUpcoming(now: int): Slot -> bool
  {
    (x: Slot) => x.status == Booked && x.date > now
  }

  /** The side list of upcoming bookings: booked slots after `now`, earliest
      first, at most five. */
  function Upcoming(slots: seq<Slot>, now: int): (r: seq<Slot>)
    ensures |r| <= 5
    ensures |r| == if |Filter(slots, IsUpcoming(now))| < 5 then |Filter(slots, IsUpcoming(now))| else 5
    ensures forall x :: x in r ==> x in slots && x.status == Booked && x.date > now
    ensures SortedBy(r, SlotDate)
    ensures multiset(r) <= multiset(Filter(slots, IsUpcoming(now)))
  {
    var upcoming := Filter(slots, IsUpcoming(now));
    var sorted := SortBy(upcoming, SlotDate);
    assert |sorted| == |multiset(sorted)| == |multiset(upcoming)| == |upcoming|;
    var n := if |sorted| < 5 then |sorted| else 5;
    forall x | x in sorted[..n]
      ensures x in slots && x.status == Booked && x.date > now
    {
      assert x in multiset(upcoming);
    }
    PrefixMultiset(sorted, n);
    sorted[..n]
  }

  /** No booked slot after `now` left out of the list is earlier than one in it. */
  lemma UpcomingAreEarliest(slots: seq<Slot>, now: int, y: Slot)
    requires y in slots && y.status == Booked && y.date > now
    requires y !in Upcoming(slots, now)
    ensures forall x :: x in Upcoming(slots, now) ==> x.date <= y.date
  {
    var sorted := SortBy(Filter(slots, IsUpcoming(now)), SlotDate);
    var n := if |sorted| < 5 then |sorted| else 5;
    assert Upcoming(slots, now) == sorted[..n];
    assert y in multiset(sorted);
    var j :| 0 <= j < |sorted| && sorted[j] == y;
    assert n <= j;
    forall x | x in sorted[..n]
      ensures x.date <= y.date
    {
      var i :| 0 <= i < n && sorted[..n][i] == x;
      assert SlotDate(sorted[i]) <= SlotDate(sorted[j]);
    }
  }

  /** The panel's state: the slots shown, the store, the selected day and the
      draft in the dialog. */
  class AvailabilityPanel {
    const today: int
    var selectedDate: Option<int>
    var availability: seq<Slot>
    var isDialogOpen: bool
    var editingSlot: Option<Slot>
    /** "photographer_availability"; None while nothing was ever written. */
    var stored: Option<seq<Slot>>

    /** Mounting: the saved slots (none when the key is absent), then the mocks. */
    constructor Load(saved: Option<seq<Slot>>, today: int)
      ensures this.today == today
      ensures availability == saved.GetOr([]) + MockBookings(today)
      ensures stored == saved
      ensures selectedDate == Some(today) && !isDialogOpen && editingSlot == None
    {
      this.today := today;
      selectedDate := Some(today);
      availability := saved.GetOr([]) + MockBookings(today);
      isDialogOpen := false;
      editingSlot := None;
      stored := saved;
    }

    /** `saveAvailability`: show the whole list, store it without the mocks. */
    method SaveAvailability(updated: seq<Slot>)
      modifies this
      ensures availability == updated
      ensures stored == Some(WithoutMocks(updated))
      ensures selectedDate == old(selectedDate) && isDialogOpen == old(isDialogOpen)
      ensures editingSlot == old(editingSlot)
    {
      availability := updated;
      stored := Some(WithoutMocks(updated));
    }

    method SelectDate(d: Option<int>)
      modifies this
      ensures selectedDate == d
      ensures availability == old(availability) && stored == old(stored)
      ensures isDialogOpen == old(isDialogOpen) && editingSlot == old(editingSlot)
    {
      selectedDate := d;
    }

    /** Opens the dialog on a fresh draft for the selected day; does nothing
        when no day is selected. */
    method CreateAvailabilitySlot(newId: string)
      modifies this
      ensures selectedDate.None? ==> editingSlot == old(editingSlot) && isDialogOpen == old(isDialogOpen)
      ensures selectedDate.Some? ==> editingSlot == NewDraft(selectedDate, newId) && isDialogOpen
      ensures selectedDate == old(selectedDate)
      ensures availability == old(availability) && stored == old(stored)
    {
      if selectedDate.None? {
        return;
      }
      editingSlot := NewDraft(selectedDate, newId);
      isDialogOpen := true;
    }

    method EditAvailabilitySlot(slot: Slot)
      modifies this
      ensures editingSlot == Some(slot) && isDialogOpen
      ensures selectedDate == old(selectedDate)
      ensures availability == old(availability) && stored == old(stored)
    {
      editingSlot := Some(slot);
      isDialogOpen := true;
    }

    /** The dialog's `onOpenChange` and its Cancel button (which passes false):
        only the dialog's visibility changes, and the draft stays. */
    method SetDialogOpen(open: bool)
      modifies this
      ensures isDialogOpen == open
      ensures editingSlot == old(editingSlot) && selectedDate == old(selectedDate)
      ensures availability == old(availability) && stored == old(stored)
    {
      isDialogOpen := open;
    }

    /** Commits the draft by id and closes the dialog; nothing without a draft. */
    method SaveSlot()
      modifies this
      ensures old(editingSlot).None? ==> availability == old(availability) && stored == old(stored)
                                         && isDialogOpen == old(isDialogOpen) && editingSlot == None
      ensures old(editingSlot).Some? ==>
                availability == UpsertSlot(old(availability), old(editingSlot).value)
                && stored == Some(WithoutMocks(availability))
                && !isDialogOpen && editingSlot == None
      ensures selectedDate == old(selectedDate)
    {
      if editingSlot.None? {
        return;
      }
      SaveAvailability(UpsertSlot(availability, editingSlot.value));
      isDialogOpen := false;
      editingSlot := None;
    }

    /** Refuses (and changes nothing) when the slot with that id is booked;
        otherwise removes every slot with that id and saves. */
    method DeleteSlot(slotId: string) returns (refused: bool)
      modifies this
      ensures refused == DeleteRefused(old(availability), slotId)
      ensures refused ==> availability == old(availability) && stored == old(stored)
      ensures !refused ==> availability == RemoveId(old(availability), slotId)
                           && stored == Some(WithoutMocks(availability))
      ensures selectedDate == old(selectedDate) && isDialogOpen == old(isDialogOpen)
      ensures editingSlot == old(editingSlot)
    {
      var slot := Find(availability, HasId(slotId));
      if slot.Some? && slot.value.status == Booked {
        refused := true;
        return;
      }
      refused := false;
      SaveAvailability(RemoveId(availability, slotId));
    }

    /** Walks the days from `startDate` to `endDate`, collects a blocked slot
        for each day whose slot is not booked, replaces the slots those blocks
        displace, saves, and reports how many days it blocked. */
    method BlockDateRange(startDate: int, endDate: int) returns (blockedDays: nat)
      modifies this
      ensures blockedDays == |BlockSlots(old(availability), startDate, endDate)|
      ensures availability == MergeBlocks(old(availability), BlockSlots(old(availability), startDate, endDate))
      ensures stored == Some(WithoutMocks(availability))
      ensures selectedDate == old(selectedDate) && isDialogOpen == old(isDialogOpen)
      ensures editingSlot == old(editingSlot)
    {
      var current := availability;
      var slots: seq<Slot> := [];
      var currentDate := startDate;
      while currentDate <= endDate
        invariant currentDate == startDate || startDate < currentDate <= endDate + 1
        invariant slots == BlockSlots(current, startDate, currentDate - 1)
        decreases endDate - currentDate
      {
        var existing := Find(current, OnDay(currentDate));
        if existing.None? || existing.value.status != Booked {
          slots := slots + [BlockedSlot(currentDate)];
        }
        currentDate := currentDate + 1;
      }
      SaveAvailability(MergeBlocks(current, slots));
      blockedDays := |slots|;
    }
  }
}
