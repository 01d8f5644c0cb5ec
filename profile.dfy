/** The profile panel: one record of contact details and a duplicate-free
    list of specialties, edited field by field and written to the
    "photographer_profile" store on save. */
module Profile {
  import opened Opt
  import opened Seqs
  import Text

  datatype ProfileData = ProfileData(
    firstName: string,
    lastName: string,
    email: string,
    phone: string,
    location: string,
    bio: string,
    website: string,
    specialties: seq<string>,
    yearsExperience: string,
    avatar: string)

  /** The keys of the record. */
  datatype Field =
    | FirstName | LastName | Email | Phone | Location | Bio | Website
    | Specialties | YearsExperience | Avatar

  /** A field's value: text, or the list of specialties. */
  datatype FieldValue = TextValue(text: string) | ListValue(items: seq<string>)

  /** The record the panel starts with when nothing is stored. */
  const DefaultProfile := ProfileData(
    "John", "Smith", "john.smith@example.com", "+1 (555) 123-4567", "New York, NY",
    "Professional photographer with over 8 years of experience capturing life's most precious moments. Specializing in weddings, portraits, and events.",
    "www.johnsmithphotography.com", ["Wedding", "Portrait", "Event", "Corporate"], "8", "/placeholder.svg")

  /** The specialties field holds a list, every other field a text. */
  predicate Fits(f: Field, v: FieldValue)
  {
    v.ListValue? <==> f == Specialties
  }

  /** `profileData[field]`. */
  function Get(p: ProfileData, f: Field): (v: FieldValue)
    ensures Fits(f, v)
  {
    match f
    case FirstName => TextValue(p.firstName)
    case LastName => TextValue(p.lastName)
    case Email => TextValue(p.email)
    case Phone => TextValue(p.phone)
    case Location => TextValue(p.location)
    case Bio => TextValue(p.bio)
    case Website => TextValue(p.website)
    case Specialties => ListValue(p.specialties)
    case YearsExperience => TextValue(p.yearsExperience)
    case Avatar => TextValue(p.avatar)
  }

  /** Two records that agree on every field are the same record. */
  lemma SameFields(p: ProfileData, q: ProfileData)
    requires forall f :: Get(p, f) == Get(q, f)
    ensures p == q
  {
    assert Get(p, FirstName) == Get(q, FirstName) && Get(p, LastName) == Get(q, LastName);
    assert Get(p, Email) == Get(q, Email) && Get(p, Phone) == Get(q, Phone);
    assert Get(p, Location) == Get(q, Location) && Get(p, Bio) == Get(q, Bio);
    assert Get(p, Website) == Get(q, Website) && Get(p, Specialties) == Get(q, Specialties);
    assert Get(p, YearsExperience) == Get(q, YearsExperience) && Get(p, Avatar) == Get(q, Avatar);
  }

  /** `{ ...prev, [field]: value }`: field `f` reads `v` and every other field
      reads as before. */
  function WithField(p: ProfileData, f: Field, v: FieldValue): (r: ProfileData)
    requires Fits(f, v)
    ensures Get(r, f) == v
    ensures forall g :: g != f ==> Get(r, g) == Get(p, g)
  {
    match f
    case FirstName => p.(firstName := v.text)
    case LastName => p.(lastName := v.text)
    case Email => p.(email := v.text)
    case Phone => p.(phone := v.text)
    case Location => p.(location := v.text)
    case Bio => p.(bio := v.text)
    case Website => p.(website := v.text)
    case Specialties => p.(specialties := v.items)
    case YearsExperience => p.(yearsExperience := v.text)
    case Avatar => p.(avatar := v.text)
  }

  /** Writing a field's own value back changes nothing; a second write to a
      field overrides the first; writes to two different fields commute. */
  lemma WithFieldLaws(p: ProfileData, f: Field, g: Field, v: FieldValue, w: FieldValue)
    requires Fits(f, v) && Fits(g, w)
    ensures WithField(p, f, Get(p, f)) == p
    ensures f == g ==> WithField(WithField(p, f, v), g, w) == WithField(p, g, w)
    ensures f != g ==> WithField(WithField(p, f, v), g, w) == WithField(WithField(p, g, w), f, v)
  {
    SameFields(WithField(p, f, Get(p, f)), p);
    if f == g {
      SameFields(WithField(WithField(p, f, v), g, w), WithField(p, g, w));
    } else {
      SameFields(WithField(WithField(p, f, v), g, w), WithField(WithField(p, g, w), f, v));
    }
  }

  /** `addSpecialty`'s new list: the trimmed text at the end when it is not
      blank and not yet listed, otherwise the list as it was. */
  function AddTag(tags: seq<string>, text: string): (r: seq<string>)
    ensures Text.Trim(text) in r || Text.IsBlank(text)
    ensures Text.IsBlank(text) || Text.Trim(text) in tags ==> r == tags
    ensures !Text.IsBlank(text) && Text.Trim(text) !in tags ==> r == tags + [Text.Trim(text)]
  {
    var t := Text.Trim(text);
    if t != [] && t !in tags then tags + [t] else tags
  }

  /** A list without repeats stays without repeats. */
  lemma AddTagKeepsDistinct(tags: seq<string>, text: string)
    requires Distinct(tags)
    ensures Distinct(AddTag(tags, text))
  {
  }

  /** Adding the same text twice leaves it listed exactly once. */
  lemma AddTagTwice(tags: seq<string>, text: string)
    requires !Text.IsBlank(text)
    requires multiset(tags)[Text.Trim(text)] <= 1
    ensures AddTag(AddTag(tags, text), text) == AddTag(tags, text)
    ensures multiset(AddTag(AddTag(tags, text), text))[Text.Trim(text)] == 1
  {
    var t := Text.Trim(text);
    if t !in tags {
      assert multiset(tags)[t] == 0;
    } else {
      assert multiset(tags)[t] >= 1;
    }
  }

  function NotEqual(s: string): string -> bool
  {
    (x: string) => x != s
  }

  /** `removeSpecialty`'s new list: every entry other than `s`, in order. */
  function RemoveTag(tags: seq<string>, s: string): (r: seq<string>)
    ensures forall x :: x in r <==> x in tags && x != s
  {
    Filter(tags, NotEqual(s))
  }

  /** Removing keeps every other entry as often as before and keeps a list
      without repeats without repeats. */
  lemma {:induction false} RemoveTagKeeps(tags: seq<string>, s: string, x: string)
    ensures multiset(RemoveTag(tags, s))[x] == if x == s then 0 else multiset(tags)[x]
    ensures Distinct(tags) ==> Distinct(RemoveTag(tags, s))
  {
    FilterCount(tags, NotEqual(s), x);
    if Distinct(tags) {
      DistinctFilter(tags, NotEqual(s));
    }
  }

  /** Removing keeps the order of what remains: the entries left of two lists
      joined are the entries left of each, joined, and a single entry stays
      exactly when it differs from the removed one. */
  lemma RemoveTagInOrder(a: seq<string>, b: seq<string>, s: string, x: string)
    ensures RemoveTag(a + b, s) == RemoveTag(a, s) + RemoveTag(b, s)
    ensures RemoveTag([x], s) == if x == s then [] else [x]
  {
    FilterAppend(a, b, NotEqual(s));
    assert [x][1..] == [];
  }

  /** Removing a specialty undoes adding it. */
  lemma RemoveUndoesAdd(tags: seq<string>, text: string)
    requires Text.Trim(text) !in tags
    ensures RemoveTag(AddTag(tags, text), Text.Trim(text)) == tags
  {
    var t := Text.Trim(text);
    FilterAll(tags, NotEqual(t));
    if !Text.IsBlank(text) {
      FilterAppend(tags, [t], NotEqual(t));
    }
  }

  class ProfilePanel {
    var profileData: ProfileData
    var newSpecialty: string
    var isEditing: bool
    /** "photographer_profile"; None while nothing was ever written. */
    var stored: Option<ProfileData>

    /** Mounting: the stored record replaces the default one whenever the key is set. */
    constructor Load(saved: Option<ProfileData>)
      ensures profileData == saved.GetOr(DefaultProfile) && stored == saved
      ensures newSpecialty == "" && !isEditing
    {
      profileData := saved.GetOr(DefaultProfile);
      stored := saved;
      newSpecialty := "";
      isEditing := false;
    }

    /** "Edit Profile". */
    method StartEditing()
      modifies this
      ensures isEditing
      ensures profileData == old(profileData) && stored == old(stored) && newSpecialty == old(newSpecialty)
    {
      isEditing := true;
    }

    /** "Save Changes": the record as it is is stored and editing ends. */
    method HandleSave()
      modifies this
      ensures stored == Some(profileData) && !isEditing
      ensures profileData == old(profileData) && newSpecialty == old(newSpecialty)
    {
      stored := Some(profileData);
      isEditing := false;
    }

    /** One field takes a new value; the store is written only on save. */
    method HandleInputChange(f: Field, v: FieldValue)
      requires Fits(f, v)
      modifies this
      ensures profileData == WithField(old(profileData), f, v)
      ensures stored == old(stored) && isEditing == old(isEditing) && newSpecialty == old(newSpecialty)
    {
      profileData := WithField(profileData, f, v);
    }

    method SetNewSpecialty(text: string)
      modifies this
      ensures newSpecialty == text
      ensures profileData == old(profileData) && stored == old(stored) && isEditing == old(isEditing)
    {
      newSpecialty := text;
    }

    /** Lists the trimmed input as a specialty and clears the input, unless it
        is blank or already listed, in which case nothing changes. */
    method AddSpecialty()
      modifies this
      ensures profileData == old(profileData).(specialties := AddTag(old(profileData).specialties, old(newSpecialty)))
      ensures newSpecialty == if profileData == old(profileData) then old(newSpecialty) else ""
      ensures stored == old(stored) && isEditing == old(isEditing)
    {
      var t := Text.Trim(newSpecialty);
      if t != [] && t !in profileData.specialties {
        HandleInputChange(Specialties, ListValue(profileData.specialties + [t]));
        newSpecialty := "";
      }
    }

    method RemoveSpecialty(specialty: string)
      modifies this
      ensures profileData == old(profileData).(specialties := RemoveTag(old(profileData).specialties, specialty))
      ensures stored == old(stored) && isEditing == old(isEditing) && newSpecialty == old(newSpecialty)
    {
      HandleInputChange(Specialties, ListValue(RemoveTag(profileData.specialties, specialty)));
    }
  }
}
