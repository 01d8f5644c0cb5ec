/** The pricing panel: service packages with a feature list and a "popular"
    flag that at most one package carries, edited through a draft, summarised
    by a count, a rounded mean price and a starting price, and written whole to
    the "photographer_packages" store. Prices are integers. */
module Pricing {
  import opened Opt
  import opened Seqs
  import Text

  datatype Package = Package(
    id: string,
    name: string,
    category: string,
    price: int,
    duration: string,
    description: string,
    features: seq<string>,
    isPopular: bool)

  /** The packages the panel starts with when nothing is stored. */
  function DefaultPackages(): (r: seq<Package>)
    ensures |r| == 3 && PopularCount(r) == 1
  {
    var r := [ Package("1", "Wedding Essential", "Wedding", 1500, "6 hours",
                       "Perfect for intimate weddings and ceremonies",
                       ["6 hours coverage", "300+ edited photos", "Online gallery", "Print release"], false),
               Package("2", "Wedding Premium", "Wedding", 2500, "8 hours",
                       "Complete wedding day coverage with premium features",
                       ["8 hours coverage", "500+ edited photos", "Online gallery", "Print release",
                        "Engagement session", "USB drive"], true),
               Package("3", "Portrait Session", "Portrait", 300, "1 hour",
                       "Professional portrait session for individuals or families",
                       ["1 hour session", "30+ edited photos", "Online gallery", "Print release"], false) ];
    assert Filter(r, IsPopular) == [r[1]];
    r
  }

  /** The draft `createNewPackage` opens. */
  function NewPackage(newId: string): Package
  {
    Package(newId, "New Package", "Wedding", 500, "2 hours", "Package description",
            ["Feature 1", "Feature 2"], false)
  }

  function HasId(id: string): Package -> bool
  {
    (p: Package) => p.id == id
  }

  function LacksId(id: string): Package -> bool
  {
    (p: Package) => p.id != id
  }

  function IsPopular(p: Package): bool
  {
    p.isPopular
  }

  function Price(p: Package): int
  {
    p.price
  }

  function PopularCount(ps: seq<Package>): nat
  {
    |Filter(ps, IsPopular)|
  }

  predicate UniqueIds(ps: seq<Package>)
  {
    forall i, j :: 0 <= i < j < |ps| ==> ps[i].id != ps[j].id
  }

  /** Distinct ids survive dropping packages. */
  lemma {:induction false} FilterKeepsUniqueIds(ps: seq<Package>, keep: Package -> bool)
    requires UniqueIds(ps)
    ensures UniqueIds(Filter(ps, keep))
  {
    if ps != [] {
      var tail := ps[1..];
      assert UniqueIds(tail) by {
        forall i, j | 0 <= i < j < |tail| ensures tail[i].id != tail[j].id {
          assert tail[i] == ps[i + 1] && tail[j] == ps[j + 1];
        }
      }
      FilterKeepsUniqueIds(tail, keep);
      var rest := Filter(tail, keep);
      forall x | x in rest ensures x.id != ps[0].id {
        var j :| 0 <= j < |tail| && tail[j] == x;
        assert ps[j + 1] == x;
      }
      if keep(ps[0]) {
        var r := [ps[0]] + rest;
        assert Filter(ps, keep) == r;
        forall i, j | 0 <= i < j < |r| ensures r[i].id != r[j].id {
          assert r[j] == rest[j - 1] && r[j] in rest;
          if i > 0 {
            assert r[i] == rest[i - 1];
          }
        }
      }
    }
  }

  /** Every operation on the list keeps its ids distinct, starting from the
      defaults, so the unique-ids premise holds of the panel's packages
      whenever it holds of what was loaded. */
  lemma UniqueIdsKept(ps: seq<Package>, draft: Package, id: string)
    ensures UniqueIds(DefaultPackages())
    ensures UniqueIds(ps) ==> UniqueIds(UpsertPackage(ps, draft))
    ensures UniqueIds(ps) ==> UniqueIds(RemovePackage(ps, id))
    ensures UniqueIds(ps) ==> UniqueIds(TogglePopular(ps, id))
  {
    if UniqueIds(ps) {
      FilterKeepsUniqueIds(ps, LacksId(id));
      var r := UpsertPackage(ps, draft);
      if forall i :: 0 <= i < |ps| ==> ps[i].id != draft.id {
        assert r == ps + [draft];
        forall i, j | 0 <= i < j < |r| ensures r[i].id != r[j].id {
          if j == |ps| {
            assert r[i] == ps[i];
          } else {
            assert r[i] == ps[i] && r[j] == ps[j];
          }
        }
      } else {
        assert forall i :: 0 <= i < |ps| ==> r[i].id == ps[i].id;
      }
    }
  }

  /** `savePackage`'s new list: the draft replaces every package with its id,
      or is appended when there is none. */
  function UpsertPackage(ps: seq<Package>, draft: Package): (r: seq<Package>)
    ensures (exists i :: 0 <= i < |ps| && ps[i].id == draft.id) ==>
              |r| == |ps| && forall i :: 0 <= i < |ps| ==> r[i] == if ps[i].id == draft.id then draft else ps[i]
    ensures (forall i :: 0 <= i < |ps| ==> ps[i].id != draft.id) ==> r == ps + [draft] && |r| == |ps| + 1
  {
    Upsert(ps, draft, HasId(draft.id))
  }

  /** After saving a draft its id finds the draft, and the packages of other
      ids are those of before, in order. */
  lemma UpsertPackageFinds(ps: seq<Package>, draft: Package)
    ensures Find(UpsertPackage(ps, draft), HasId(draft.id)) == Some(draft)
    ensures Filter(UpsertPackage(ps, draft), LacksId(draft.id)) == Filter(ps, LacksId(draft.id))
  {
    UpsertFinds(ps, draft, HasId(draft.id));
    UpsertKeepsOthers(ps, draft, HasId(draft.id), LacksId(draft.id));
  }

  /** `deletePackage`'s new list: every package of another id. */
  function RemovePackage(ps: seq<Package>, id: string): (r: seq<Package>)
    ensures forall p :: p in r <==> p in ps && p.id != id
  {
    Filter(ps, LacksId(id))
  }

  /** Deleting keeps each package of another id as often as before, and
      changes nothing when no package has that id. */
  lemma RemovePackageKeeps(ps: seq<Package>, id: string, p: Package)
    ensures multiset(RemovePackage(ps, id))[p] == if p.id == id then 0 else multiset(ps)[p]
    ensures (forall q :: q in ps ==> q.id != id) ==> RemovePackage(ps, id) == ps
  {
    FilterCount(ps, LacksId(id), p);
    if forall q :: q in ps ==> q.id != id {
      FilterAll(ps, LacksId(id));
    }
  }

  /** Deleting keeps the order of what remains: the packages left of two lists
      joined are the packages left of each, joined, and a single package stays
      exactly when it has another id. */
  lemma RemovePackageInOrder(a: seq<Package>, b: seq<Package>, id: string, p: Package)
    ensures RemovePackage(a + b, id) == RemovePackage(a, id) + RemovePackage(b, id)
    ensures RemovePackage([p], id) == if p.id == id then [] else [p]
  {
    FilterAppend(a, b, LacksId(id));
    assert [p][1..] == [];
  }

  /** `togglePopular(id)`: the target's flag flips, every other flag is
      cleared, and nothing else changes. */
  function TogglePopular(ps: seq<Package>, id: string): (r: seq<Package>)
    ensures |r| == |ps|
    ensures forall i :: 0 <= i < |ps| ==> r[i] == ps[i].(isPopular := r[i].isPopular)
    ensures forall i :: 0 <= i < |ps| ==> r[i].isPopular == (ps[i].id == id && !ps[i].isPopular)
  {
    Map(ps, (p: Package) => p.(isPopular := if p.id == id then !p.isPopular else false))
  }

  /** With unique ids, at most one package is popular after a toggle. */
  lemma {:induction false} ToggleLeavesOnePopular(ps: seq<Package>, id: string)
    requires UniqueIds(ps)
    ensures PopularCount(TogglePopular(ps, id)) <= 1
  {
    var r := TogglePopular(ps, id);
    var k := FindIndex(ps, HasId(id));
    if k < |ps| {
      assert r == r[..k] + [r[k]] + r[k + 1..];
      FilterAppend(r[..k] + [r[k]], r[k + 1..], IsPopular);
      FilterAppend(r[..k], [r[k]], IsPopular);
      FilterNone(r[..k], IsPopular);
      FilterNone(r[k + 1..], IsPopular);
    } else {
      FilterNone(r, IsPopular);
    }
  }

  /** Toggling the same id twice gives the target its old flag back and
      clears every other flag, so it restores the list exactly when no other
      package was popular. */
  lemma ToggleTwice(ps: seq<Package>, id: string)
    ensures forall i :: 0 <= i < |ps| ==>
              TogglePopular(TogglePopular(ps, id), id)[i] == ps[i].(isPopular := ps[i].id == id && ps[i].isPopular)
    ensures TogglePopular(TogglePopular(ps, id), id) == ps <==>
              forall i :: 0 <= i < |ps| && ps[i].id != id ==> !ps[i].isPopular
  {
    var r := TogglePopular(TogglePopular(ps, id), id);
    if !(forall i :: 0 <= i < |ps| && ps[i].id != id ==> !ps[i].isPopular) {
      var i :| 0 <= i < |ps| && ps[i].id != id && ps[i].isPopular;
      assert r[i] != ps[i];
    }
  }

  /** `addFeature`: the trimmed text goes at the end of the features unless it
      is blank. */
  function AddFeature(features: seq<string>, text: string): (r: seq<string>)
    ensures Text.IsBlank(text) ==> r == features
    ensures !Text.IsBlank(text) ==>
              |r| == |features| + 1 && r[..|features|] == features && r[|features|] == Text.Trim(text) && r[|features|] != []
  {
    if Text.IsBlank(text) then features else features + [Text.Trim(text)]
  }

  /** `removeFeature(index)`: every feature but the one at `index`, in order;
      an index out of range drops nothing. */
  function RemoveFeatureAt(features: seq<string>, index: int): (r: seq<string>)
    ensures 0 <= index < |features| ==>
              && |r| == |features| - 1
              && (forall j :: 0 <= j < index ==> r[j] == features[j])
              && (forall j :: index <= j < |r| ==> r[j] == features[j + 1])
    ensures !(0 <= index < |features|) ==> r == features
  {
    if 0 <= index < |features| then features[..index] + features[index + 1..] else features
  }

  /** "Average Price": `Math.round(sum / count)`, 0 for no packages. */
  function AveragePrice(ps: seq<Package>): (r: int)
    ensures |ps| == 0 ==> r == 0
    ensures |ps| > 0 ==> 2 * |ps| * r - |ps| <= 2 * Sum(Map(ps, Price)) < 2 * |ps| * r + |ps|
  {
    if |ps| == 0 then 0 else RoundedMean(Sum(Map(ps, Price)), |ps|)
  }

  /** `Math.round(sum / n)`: the integer nearest to the mean, halves rounded
      up, so that `r - 1/2 <= sum / n < r + 1/2`. */
  function RoundedMean(sum: int, n: nat): (r: int)
    requires n > 0
    ensures 2 * n * r - n <= 2 * sum < 2 * n * r + n
  {
    var r := (2 * sum + n) / (2 * n);
    assert 2 * n * r <= 2 * sum + n < 2 * n * r + 2 * n by {
      DivBounds(2 * sum + n, 2 * n);
    }
    r
  }

  lemma DivBounds(a: int, b: int)
    requires b > 0
    ensures b * (a / b) <= a < b * (a / b) + b
  {
  }

  /** "Starting From": the lowest price, 0 for no packages. */
  function StartingPrice(ps: seq<Package>): (r: int)
    ensures |ps| == 0 ==> r == 0
    ensures |ps| > 0 ==> (exists p :: p in ps && p.price == r) && forall p :: p in ps ==> r <= p.price
  {
    if |ps| == 0 then 0
    else
      var prices := Map(ps, Price);
      var m := Min(prices);
      assert forall p :: p in ps ==> p.price in prices by {
        forall p | p in ps ensures p.price in prices {
          var i :| 0 <= i < |ps| && ps[i] == p;
          assert prices[i] == p.price;
        }
      }
      var i :| 0 <= i < |prices| && prices[i] == m;
      assert ps[i] in ps && ps[i].price == m;
      m
  }

  class PricingPanel {
    var packages: seq<Package>
    var isEditing: bool
    var editingPackage: Option<Package>
    var newFeature: string
    /** "photographer_packages"; None while nothing was ever written. */
    var stored: Option<seq<Package>>

    /** Mounting: the stored packages whenever the key is set, even to an empty
        list, else the defaults. */
    constructor Load(saved: Option<seq<Package>>)
      ensures packages == saved.GetOr(DefaultPackages())
      ensures stored == saved
      ensures !isEditing && editingPackage == None && newFeature == ""
    {
      packages := saved.GetOr(DefaultPackages());
      stored := saved;
      isEditing := false;
      editingPackage := None;
      newFeature := "";
    }

    /** `savePackages`: the list shown and the list stored are the same. */
    method SavePackages(updated: seq<Package>)
      modifies this
      ensures packages == updated && stored == Some(updated)
      ensures isEditing == old(isEditing) && editingPackage == old(editingPackage)
      ensures newFeature == old(newFeature)
    {
      packages := updated;
      stored := Some(updated);
    }

    method CreateNewPackage(newId: string)
      modifies this
      ensures editingPackage == Some(NewPackage(newId)) && isEditing
      ensures packages == old(packages) && stored == old(stored) && newFeature == old(newFeature)
    {
      editingPackage := Some(NewPackage(newId));
      isEditing := true;
    }

    method EditPackage(p: Package)
      modifies this
      ensures editingPackage == Some(p) && isEditing
      ensures packages == old(packages) && stored == old(stored) && newFeature == old(newFeature)
    {
      editingPackage := Some(p);
      isEditing := true;
    }

    /** Commits the draft by id and closes the editor; nothing without a draft. */
    method SavePackage()
      modifies this
      ensures old(editingPackage).None? ==> packages == old(packages) && stored == old(stored)
                                            && isEditing == old(isEditing) && editingPackage == None
      ensures old(editingPackage).Some? ==>
                packages == UpsertPackage(old(packages), old(editingPackage).value)
                && stored == Some(packages) && !isEditing && editingPackage == None
      ensures newFeature == old(newFeature)
    {
      if editingPackage.None? {
        return;
      }
      SavePackages(UpsertPackage(packages, editingPackage.value));
      isEditing := false;
      editingPackage := None;
    }

    /** Cancel closes the editor and keeps the draft. */
    method CancelEdit()
      modifies this
      ensures !isEditing && editingPackage == old(editingPackage)
      ensures packages == old(packages) && stored == old(stored) && newFeature == old(newFeature)
    {
      isEditing := false;
    }

    method DeletePackage(packageId: string)
      modifies this
      ensures packages == RemovePackage(old(packages), packageId) && stored == Some(packages)
      ensures isEditing == old(isEditing) && editingPackage == old(editingPackage)
      ensures newFeature == old(newFeature)
    {
      SavePackages(RemovePackage(packages, packageId));
    }

    method TogglePopularFlag(packageId: string)
      modifies this
      ensures packages == TogglePopular(old(packages), packageId) && stored == Some(packages)
      ensures isEditing == old(isEditing) && editingPackage == old(editingPackage)
      ensures newFeature == old(newFeature)
    {
      SavePackages(TogglePopular(packages, packageId));
    }

    method SetNewFeature(text: string)
      modifies this
      ensures newFeature == text
      ensures packages == old(packages) && stored == old(stored)
      ensures isEditing == old(isEditing) && editingPackage == old(editingPackage)
    {
      newFeature := text;
    }

    /** Appends the trimmed feature text to the draft and clears the input;
        does nothing without a draft or with a blank text. */
    method AddFeatureToDraft()
      modifies this
      ensures old(editingPackage).None? || Text.IsBlank(old(newFeature)) ==>
                editingPackage == old(editingPackage) && newFeature == old(newFeature)
      ensures old(editingPackage).Some? && !Text.IsBlank(old(newFeature)) ==>
                editingPackage == Some(old(editingPackage).value.(features :=
                  AddFeature(old(editingPackage).value.features, old(newFeature))))
                && newFeature == ""
      ensures packages == old(packages) && stored == old(stored) && isEditing == old(isEditing)
    {
      if editingPackage.None? || Text.IsBlank(newFeature) {
        return;
      }
      var draft := editingPackage.value;
      editingPackage := Some(draft.(features := AddFeature(draft.features, newFeature)));
      newFeature := "";
    }

    /** Drops the feature at `index` from the draft; nothing without a draft. */
    method RemoveFeatureFromDraft(index: int)
      modifies this
      ensures old(editingPackage).None? ==> editingPackage == None
      ensures old(editingPackage).Some? ==>
                editingPackage == Some(old(editingPackage).value.(features :=
                  RemoveFeatureAt(old(editingPackage).value.features, index)))
      ensures packages == old(packages) && stored == old(stored)
      ensures isEditing == old(isEditing) && newFeature == old(newFeature)
    {
      if editingPackage.None? {
        return;
      }
      var draft := editingPackage.value;
      editingPackage := Some(draft.(features := RemoveFeatureAt(draft.features, index)));
    }
  }
}
