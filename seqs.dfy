/** The array operations the components compute their new lists with:
    `map`, `filter`, `find`/`findIndex`, `reduce` to a sum, `Math.min` over a
    list, and a stable `sort` by an integer key. Each is defined once here and
    specified by what it returns, element by element. */
module Seqs {
  import opened Opt

  /** `s.map(f)`. */
  function Map<T, U>(s: seq<T>, f: T -> U): (r: seq<U>)
    ensures |r| == |s|
    ensures forall i :: 0 <= i < |s| ==> r[i] == f(s[i])
  {
    seq(|s|, i requires 0 <= i < |s| => f(s[i]))
  }

  lemma MapAppend<T, U>(a: seq<T>, b: seq<T>, f: T -> U)
    ensures Map(a + b, f) == Map(a, f) + Map(b, f)
  {
    assert Map(a + b, f) == Map(a, f) + Map(b, f);
  }

  /** `s.filter(keep)`: the elements that pass, each as often as in `s`. */
  function Filter<T(!new)>(s: seq<T>, keep: T -> bool): (r: seq<T>)
    ensures |r| <= |s|
    ensures forall x :: x in r <==> x in s && keep(x)
  {
    if s == [] then []
    else
      assert s == [s[0]] + s[1..];
      (if keep(s[0]) then [s[0]] else []) + Filter(s[1..], keep)
  }

  /** The filtered list holds each passing element as often as `s` does. */
  lemma {:induction false} FilterCount<T(!new)>(s: seq<T>, keep: T -> bool, x: T)
    ensures multiset(Filter(s, keep))[x] == if keep(x) then multiset(s)[x] else 0
  {
    if s != [] {
      assert s == [s[0]] + s[1..];
      FilterCount(s[1..], keep, x);
    }
  }

  /** Filtering a concatenation filters each part and keeps their order. */
  lemma {:induction false} FilterAppend<T(!new)>(a: seq<T>, b: seq<T>, keep: T -> bool)
    ensures Filter(a + b, keep) == Filter(a, keep) + Filter(b, keep)
  {
    if a == [] {
      assert a + b == b;
    } else {
      assert (a + b)[1..] == a[1..] + b;
      FilterAppend(a[1..], b, keep);
    }
  }

  /** A filter that every element passes returns the list itself. */
  lemma {:induction false} FilterAll<T(!new)>(s: seq<T>, keep: T -> bool)
    requires forall x :: x in s ==> keep(x)
    ensures Filter(s, keep) == s
  {
    if s != [] {
      FilterAll(s[1..], keep);
    }
  }

  /** A filter that no element passes returns the empty list. */
  lemma {:induction false} FilterNone<T(!new)>(s: seq<T>, keep: T -> bool)
    requires forall x :: x in s ==> !keep(x)
    ensures Filter(s, keep) == []
  {
    if s != [] {
      FilterNone(s[1..], keep);
    }
  }

  /** Filtering twice, the second time by a test that implies the first,
      is filtering once by the second. */
  lemma {:induction false} FilterFilter<T(!new)>(s: seq<T>, first: T -> bool, second: T -> bool)
    requires forall x :: x in s && second(x) ==> first(x)
    ensures Filter(Filter(s, first), second) == Filter(s, second)
  {
    if s != [] {
      var head := if first(s[0]) then [s[0]] else [];
      var tail := Filter(s[1..], first);
      assert Filter(s, first) == head + tail;
      FilterAppend(head, tail, second);
      FilterFilter(s[1..], first, second);
      assert Filter(head, second) == if second(s[0]) then [s[0]] else [] by {
        if first(s[0]) { assert head[1..] == []; }
      }
    }
  }

  /** Two lists of one length that agree wherever either passes `keep` have
      the same filtered list. */
  lemma {:induction false} FilterAgree<T(!new)>(a: seq<T>, b: seq<T>, keep: T -> bool)
    requires |a| == |b|
    requires forall i :: 0 <= i < |a| ==> (keep(a[i]) <==> keep(b[i]))
    requires forall i :: 0 <= i < |a| && keep(a[i]) ==> a[i] == b[i]
    ensures Filter(a, keep) == Filter(b, keep)
  {
    if a != [] {
      assert keep(a[0]) <==> keep(b[0]);
      FilterAgree(a[1..], b[1..], keep);
    }
  }

  predicate Distinct<T(==)>(s: seq<T>)
  {
    forall i, j :: 0 <= i < j < |s| ==> s[i] != s[j]
  }

  /** Filtering a list without repetitions leaves a list without repetitions. */
  lemma {:induction false} DistinctFilter<T(!new)>(s: seq<T>, keep: T -> bool)
    requires Distinct(s)
    ensures Distinct(Filter(s, keep))
  {
    if s != [] {
      assert s == [s[0]] + s[1..];
      assert Distinct(s[1..]);
      DistinctFilter(s[1..], keep);
      assert s[0] !in Filter(s[1..], keep);
    }
  }

  /** The values of `s` that pass `keep`. */
  function Passing<T(!new)>(s: seq<T>, keep: T -> bool): (r: set<T>)
    ensures forall x :: x in r <==> x in s && keep(x)
  {
    set x | x in s && keep(x)
  }

  /** Filtering a list without repetitions keeps one entry per passing value. */
  lemma {:induction false} DistinctFilterCard<T(!new)>(s: seq<T>, keep: T -> bool)
    requires Distinct(s)
    ensures |Filter(s, keep)| == |Passing(s, keep)|
  {
    if s == [] {
      assert Passing(s, keep) == {};
    } else {
      assert s == [s[0]] + s[1..];
      assert Distinct(s[1..]);
      DistinctFilterCard(s[1..], keep);
      assert s[0] !in s[1..];
      if keep(s[0]) {
        assert Passing(s, keep) == Passing(s[1..], keep) + {s[0]};
      } else {
        assert Passing(s, keep) == Passing(s[1..], keep);
      }
    }
  }

  /** `s.findIndex(p)`, with `|s|` in place of -1: the first index whose
      element satisfies `p`. */
  function FindIndex<T>(s: seq<T>, p: T -> bool): (k: nat)
    ensures k <= |s|
    ensures k < |s| ==> p(s[k])
    ensures forall j :: 0 <= j < k ==> !p(s[j])
  {
    if s == [] then 0 else if p(s[0]) then 0 else 1 + FindIndex(s[1..], p)
  }

  /** `s.find(p)`: the first element satisfying `p`, None for `undefined`. */
  function Find<T>(s: seq<T>, p: T -> bool): (r: Option<T>)
    ensures r.None? <==> forall x :: x in s ==> !p(x)
    ensures r.Some? ==> r.value in s && p(r.value)
  {
    var k := FindIndex(s, p);
    if k < |s| then Some(s[k]) else None
  }

  /** The first match in `a + b` is the first in `a`, or else the first in `b`. */
  lemma FindAppend<T>(a: seq<T>, b: seq<T>, p: T -> bool)
    ensures Find(a + b, p) == if Find(a, p).Some? then Find(a, p) else Find(b, p)
  {
    var ka := FindIndex(a, p);
    assert forall j :: 0 <= j < |a| ==> (a + b)[j] == a[j];
    assert forall j :: 0 <= j < |b| ==> (a + b)[|a| + j] == b[j];
    if ka < |a| {
      assert FindIndex(a + b, p) == ka;
    } else {
      assert FindIndex(a + b, p) == |a| + FindIndex(b, p);
    }
  }

  /** Filtering out only elements that `p` rejects does not change which
      element `find(p)` returns. */
  lemma {:induction false} FindFilter<T(!new)>(s: seq<T>, keep: T -> bool, p: T -> bool)
    requires forall x :: x in s && p(x) ==> keep(x)
    ensures Find(Filter(s, keep), p) == Find(s, p)
  {
    if s != [] {
      FindFilter(s[1..], keep, p);
      var rest := Filter(s[1..], keep);
      if keep(s[0]) {
        assert Filter(s, keep) == [s[0]] + rest;
        FindAppend([s[0]], rest, p);
        FindAppend([s[0]], s[1..], p);
        assert s == [s[0]] + s[1..];
      } else {
        assert Filter(s, keep) == rest;
        FindAppend([s[0]], s[1..], p);
        assert s == [s[0]] + s[1..];
      }
    }
  }

  /** The upsert the panels save drafts with: replace every element `same`
      picks out by `x` when there is one (`findIndex(same) >= 0`, then `map`),
      otherwise append `x`. */
  function Upsert<T>(s: seq<T>, x: T, same: T -> bool): (r: seq<T>)
    ensures (exists i :: 0 <= i < |s| && same(s[i])) ==>
              |r| == |s| && forall i :: 0 <= i < |s| ==> r[i] == if same(s[i]) then x else s[i]
    ensures (forall i :: 0 <= i < |s| ==> !same(s[i])) ==> r == s + [x]
  {
    if FindIndex(s, same) < |s| then Map(s, (e: T) => if same(e) then x else e) else s + [x]
  }

  /** The first index satisfying `p` is unique. */
  lemma FindIndexIs<T>(s: seq<T>, p: T -> bool, k: nat)
    requires k <= |s|
    requires k < |s| ==> p(s[k])
    requires forall j :: 0 <= j < k ==> !p(s[j])
    ensures FindIndex(s, p) == k
  {
  }

  /** After an upsert, `find(same)` returns the upserted element. */
  lemma UpsertFinds<T>(s: seq<T>, x: T, same: T -> bool)
    requires same(x)
    ensures Find(Upsert(s, x, same), same) == Some(x)
  {
    var r := Upsert(s, x, same);
    var k := FindIndex(s, same);
    if k < |s| {
      assert r[k] == x;
      FindIndexIs(r, same, k);
    } else {
      assert r[|s|] == x;
      FindIndexIs(r, same, |s|);
    }
  }

  /** An upsert leaves the elements `same` does not pick out as they were, in
      order. */
  lemma UpsertKeepsOthers<T(!new)>(s: seq<T>, x: T, same: T -> bool, other: T -> bool)
    requires same(x)
    requires forall e :: other(e) <==> !same(e)
    ensures Filter(Upsert(s, x, same), other) == Filter(s, other)
  {
    var r := Upsert(s, x, same);
    if FindIndex(s, same) < |s| {
      FilterAgree(r, s, other);
    } else {
      FilterAppend(s, [x], other);
    }
  }

  /** `s.reduce((sum, x) => sum + x, 0)`. */
  function Sum(s: seq<int>): int
  {
    if s == [] then 0 else s[0] + Sum(s[1..])
  }

  lemma {:induction false} SumAppend(a: seq<int>, b: seq<int>)
    ensures Sum(a + b) == Sum(a) + Sum(b)
  {
    if a == [] {
      assert a + b == b;
    } else {
      assert (a + b)[1..] == a[1..] + b;
      SumAppend(a[1..], b);
    }
  }

  /** `Math.min(...s)` for a non-empty list: an element that no element is below. */
  function Min(s: seq<int>): (m: int)
    requires |s| > 0
    ensures m in s
    ensures forall x :: x in s ==> m <= x
  {
    if |s| == 1 then s[0]
    else
      var rest := Min(s[1..]);
      assert s == [s[0]] + s[1..];
      if s[0] <= rest then s[0] else rest
  }

  /** A prefix holds no element more often than the whole list. */
  lemma PrefixMultiset<T>(s: seq<T>, n: nat)
    requires n <= |s|
    ensures multiset(s[..n]) <= multiset(s)
  {
    assert s == s[..n] + s[n..];
  }

  ghost predicate SortedBy<T>(s: seq<T>, key: T -> int)
  {
    forall i, j :: 0 <= i < j < |s| ==> key(s[i]) <= key(s[j])
  }

  /** Inserts `x` before the first element whose key is not below its own. */
  function InsertBy<T>(x: T, s: seq<T>, key: T -> int): (r: seq<T>)
    requires SortedBy(s, key)
    ensures SortedBy(r, key)
    ensures multiset(r) == multiset(s) + multiset{x}
  {
    if s == [] then [x]
    else if key(x) <= key(s[0]) then [x] + s
    else
      var rest := InsertBy(x, s[1..], key);
      assert s == [s[0]] + s[1..];
      assert forall y :: y in rest ==> key(s[0]) <= key(y) by {
        forall y | y in rest ensures key(s[0]) <= key(y) {
          assert y in multiset(rest);
          if y != x {
            assert y in multiset(s[1..]);
          }
        }
      }
      assert forall j :: 0 <= j < |rest| ==> rest[j] in rest;
      [s[0]] + rest
  }

  /** `s.sort((a, b) => key(a) - key(b))`: ascending by key, a permutation of
      `s`, and stable (an element is inserted before the equal keys that came
      after it). */
  function SortBy<T>(s: seq<T>, key: T -> int): (r: seq<T>)
    ensures SortedBy(r, key)
    ensures multiset(r) == multiset(s)
  {
    if s == [] then []
    else
      assert s == [s[0]] + s[1..];
      InsertBy(s[0], SortBy(s[1..], key), key)
  }
}
