/** The Python list operations the service and its handlers rely on:
    comprehension filters, `sum`, `max(..., key=...)` and the stable
    `list.sort(key=..., reverse=True)`. */
module Lists {

  /** `[x for x in s if keep(x)]`: the kept elements, in input order. */
  function Filter<T>(s: seq<T>, keep: T -> bool): (r: seq<T>)
    ensures |r| <= |s|
  {
    if s == [] then []
    else
      var n := |s| - 1;
      Filter(s[..n], keep) + (if keep(s[n]) then [s[n]] else [])
  }

  /** The filtered list holds exactly the kept elements, each as often as
      the input does. */
  lemma {:induction false} FilterMembers<T>(s: seq<T>, keep: T -> bool)
    ensures forall x :: x in Filter(s, keep) <==> x in s && keep(x)
    ensures forall x :: multiset(Filter(s, keep))[x] == if keep(x) then multiset(s)[x] else 0
  {
    if s != [] {
      var n := |s| - 1;
      FilterMembers(s[..n], keep);
      assert s == s[..n] + [s[n]];
    }
  }

  /** A bound on every input key bounds every kept key. */
  lemma {:induction false} FilterBounded<T>(s: seq<T>, keep: T -> bool, key: T -> int, bound: int)
    requires forall i :: 0 <= i < |s| ==> key(s[i]) < bound
    ensures forall i :: 0 <= i < |Filter(s, keep)| ==> key(Filter(s, keep)[i]) < bound
  {
    if s != [] {
      FilterBounded(s[..|s| - 1], keep, key, bound);
    }
  }

  /** A property of every input element holds of every kept element. */
  lemma {:induction false} FilterAll<T>(s: seq<T>, keep: T -> bool, p: T -> bool)
    requires forall i :: 0 <= i < |s| ==> p(s[i])
    ensures forall i :: 0 <= i < |Filter(s, keep)| ==> p(Filter(s, keep)[i])
  {
    if s != [] {
      FilterAll(s[..|s| - 1], keep, p);
    }
  }

  /** Filtering keeps the input order: a key that strictly increases along
      the input strictly increases along the filtered list. */
  lemma {:induction false} FilterIncreasing<T>(s: seq<T>, keep: T -> bool, key: T -> int)
    requires forall i, j :: 0 <= i < j < |s| ==> key(s[i]) < key(s[j])
    ensures forall i, j :: 0 <= i < j < |Filter(s, keep)| ==> key(Filter(s, keep)[i]) < key(Filter(s, keep)[j])
  {
    if s != [] {
      var n := |s| - 1;
      FilterIncreasing(s[..n], keep, key);
      FilterBounded(s[..n], keep, key, key(s[n]));
    }
  }

  /** Filtering a list without repeats keeps its order: the positions of
      the kept elements in the input strictly increase. */
  lemma FilterInOrder<T>(s: seq<T>, keep: T -> bool)
    requires forall i, j :: 0 <= i < j < |s| ==> s[i] != s[j]
    ensures forall i, j :: 0 <= i < j < |Filter(s, keep)| ==> Position(s, Filter(s, keep)[i]) < Position(s, Filter(s, keep)[j])
  {
    forall k | 0 <= k < |s|
      ensures Position(s, s[k]) == k
    {
      var p := Position(s, s[k]);
      assert p <= k;
    }
    FilterIncreasing(s, keep, (x: T) => Position(s, x));
  }

  /** `s.index(x)`: the first position of `x`, or `|s|` when it is absent. */
  function Position<T(==)>(s: seq<T>, x: T): (i: nat)
    ensures i <= |s|
    ensures i < |s| <==> x in s
    ensures i < |s| ==> s[i] == x
    ensures forall j :: 0 <= j < i ==> s[j] != x
  {
    if s == [] then 0
    else if s[0] == x then 0
    else
      assert x in s[1..] <==> x in s;
      1 + Position(s[1..], x)
  }

  /** `sum(s)`, adding from the left. */
  function Sum(s: seq<real>): real {
    if s == [] then 0.0 else Sum(s[..|s| - 1]) + s[|s| - 1]
  }

  /** The sum of non-negative numbers is non-negative. */
  lemma {:induction false} SumNonNegative(s: seq<real>)
    requires forall i :: 0 <= i < |s| ==> s[i] >= 0.0
    ensures Sum(s) >= 0.0
  {
    if s != [] {
      SumNonNegative(s[..|s| - 1]);
    }
  }

  /** Adding non-negative numbers never decreases a running total. */
  lemma {:induction false} SumMonotone(s: seq<real>, i: nat, j: nat)
    requires i <= j <= |s|
    requires forall k :: 0 <= k < |s| ==> s[k] >= 0.0
    ensures Sum(s[..i]) <= Sum(s[..j])
  {
    if i < j {
      SumMonotone(s, i, j - 1);
      assert s[..j][..j - 1] == s[..j - 1];
    }
  }

  /** Bounds on every element bound the sum by the count times each bound. */
  lemma {:induction false} SumBounded(s: seq<real>, lo: real, hi: real)
    requires forall i :: 0 <= i < |s| ==> lo <= s[i] <= hi
    ensures lo * |s| as real <= Sum(s) <= hi * |s| as real
  {
    if s != [] {
      SumBounded(s[..|s| - 1], lo, hi);
    }
  }

  /** The pandas `Series.mean()` of a non-empty column. */
  function Mean(s: seq<real>): real
    requires |s| > 0
  {
    Sum(s) / |s| as real
  }

  /** The mean lies between any bounds on the elements. */
  lemma MeanBounded(s: seq<real>, lo: real, hi: real)
    requires |s| > 0
    requires forall i :: 0 <= i < |s| ==> lo <= s[i] <= hi
    ensures lo <= Mean(s) <= hi
  {
    SumBounded(s, lo, hi);
  }

  /** Elements are in non-increasing order of their keys. */
  predicate SortedDescending<T>(s: seq<T>, key: T -> real) {
    forall i, j :: 0 <= i < j < |s| ==> key(s[i]) >= key(s[j])
  }

  /** Puts `x` before the first element whose key is not above its own, so
      that `x` stays ahead of the equal keys it preceded in the input. */
  function Insert<T(!new)>(x: T, s: seq<T>, key: T -> real): (r: seq<T>)
    ensures |r| == |s| + 1
    ensures multiset(r) == multiset(s) + multiset{x}
  {
    if s == [] || key(s[0]) <= key(x) then [x] + s
    else
      assert s == [s[0]] + s[1..];
      [s[0]] + Insert(x, s[1..], key)
  }

  /** Inserting into a sorted list keeps it sorted. */
  lemma {:induction false} InsertSorted<T(!new)>(x: T, s: seq<T>, key: T -> real)
    requires SortedDescending(s, key)
    ensures SortedDescending(Insert(x, s, key), key)
  {
    if s != [] && key(s[0]) > key(x) {
      var rest := Insert(x, s[1..], key);
      InsertSorted(x, s[1..], key);
      forall k | 0 <= k < |rest|
        ensures key(s[0]) >= key(rest[k])
      {
        assert rest[k] in multiset(rest);
        if rest[k] != x {
          assert rest[k] in multiset(s[1..]);
          var m :| 0 <= m < |s[1..]| && s[1..][m] == rest[k];
          assert s[m + 1] == rest[k];
        }
      }
      assert Insert(x, s, key) == [s[0]] + rest;
    }
  }

  /** `sorted(s, key=key, reverse=True)`: stable, so elements with equal keys
      keep their input order. */
  function SortDescending<T(!new)>(s: seq<T>, key: T -> real): (r: seq<T>)
    ensures |r| == |s|
    ensures multiset(r) == multiset(s)
    ensures SortedDescending(r, key)
  {
    if s == [] then []
    else
      assert s == [s[0]] + s[1..];
      var rest := SortDescending(s[1..], key);
      InsertSorted(s[0], rest, key);
      Insert(s[0], rest, key)
  }

  /** The index that `max(s, key=key)` picks: a maximal key, and the first
      element that has it. */
  function FirstMaxIndex<T>(s: seq<T>, key: T -> real): (i: nat)
    requires |s| > 0
    ensures i < |s|
    ensures forall j :: 0 <= j < |s| ==> key(s[j]) <= key(s[i])
    ensures forall j :: 0 <= j < i ==> key(s[j]) < key(s[i])
  {
    if |s| == 1 then 0
    else
      var j := FirstMaxIndex(s[1..], key);
      if key(s[0]) >= key(s[1..][j]) then 0 else j + 1
  }

  /** The head of the stable descending sort is what `max` picks: the first
      element with the largest key. */
  lemma {:induction false} SortHeadIsFirstMax<T(!new)>(s: seq<T>, key: T -> real)
    requires |s| > 0
    ensures SortDescending(s, key)[0] == s[FirstMaxIndex(s, key)]
  {
    if |s| > 1 {
      SortHeadIsFirstMax(s[1..], key);
    }
  }

  /** `r = [x for x in s if keep(x)]` followed by
      `r.sort(key=key, reverse=True)`. */
  function FilterSorted<T(!new)>(s: seq<T>, keep: T -> bool, key: T -> real): (r: seq<T>)
    ensures |r| <= |s|
  {
    SortDescending(Filter(s, keep), key)
  }

  /** The filtered and sorted list holds exactly the kept elements, each as
      often as the input does, in non-increasing order of their keys. */
  lemma FilterSortedMembers<T(!new)>(s: seq<T>, keep: T -> bool, key: T -> real)
    ensures forall x :: x in FilterSorted(s, keep, key) <==> x in s && keep(x)
    ensures forall x :: multiset(FilterSorted(s, keep, key))[x] == if keep(x) then multiset(s)[x] else 0
    ensures SortedDescending(FilterSorted(s, keep, key), key)
  {
    var f := Filter(s, keep);
    var r := FilterSorted(s, keep, key);
    FilterMembers(s, keep);
    assert multiset(r) == multiset(f);
    forall x
      ensures x in r <==> x in f
    {
      assert x in r <==> x in multiset(r);
      assert x in f <==> x in multiset(f);
    }
  }

  /** When a position key strictly increases along the input, the head of
      the filtered and sorted list is what `max` over the kept elements
      picks: kept, of maximal key, and ahead of every other kept element of
      that key. */
  lemma FilterSortedHead<T(!new)>(s: seq<T>, keep: T -> bool, key: T -> real, pos: T -> int)
    requires forall i, j :: 0 <= i < j < |s| ==> pos(s[i]) < pos(s[j])
    requires FilterSorted(s, keep, key) != []
    ensures FilterSorted(s, keep, key)[0] in s && keep(FilterSorted(s, keep, key)[0])
    ensures forall i :: 0 <= i < |s| && keep(s[i]) ==> key(s[i]) <= key(FilterSorted(s, keep, key)[0])
    ensures forall i :: (0 <= i < |s| && keep(s[i]) && pos(s[i]) < pos(FilterSorted(s, keep, key)[0])) ==>
      key(s[i]) < key(FilterSorted(s, keep, key)[0])
  {
    var f := Filter(s, keep);
    SortHeadIsFirstMax(f, key);
    var k := FirstMaxIndex(f, key);
    assert FilterSorted(s, keep, key)[0] == f[k];
    FilterKeeps(s, keep, f[k]);
    FilterIncreasing(s, keep, pos);
    forall i | 0 <= i < |s| && keep(s[i])
      ensures key(s[i]) <= key(f[k])
      ensures pos(s[i]) < pos(f[k]) ==> key(s[i]) < key(f[k])
    {
      FilterKeeps(s, keep, s[i]);
      FirstMaxBeatsEarlier(f, key, pos, s[i]);
    }
  }

  /** With positions increasing along a list, the first element of largest
      key beats every element at an earlier position. */
  lemma FirstMaxBeatsEarlier<T>(f: seq<T>, key: T -> real, pos: T -> int, x: T)
    requires forall i, j :: 0 <= i < j < |f| ==> pos(f[i]) < pos(f[j])
    requires x in f
    ensures key(x) <= key(f[FirstMaxIndex(f, key)])
    ensures pos(x) < pos(f[FirstMaxIndex(f, key)]) ==> key(x) < key(f[FirstMaxIndex(f, key)])
  {
    var k := FirstMaxIndex(f, key);
    var j :| 0 <= j < |f| && f[j] == x;
    if pos(x) < pos(f[k]) {
      assert j < k;
    }
  }

  /** An element is in the filtered list exactly when it is in the input
      and kept. */
  lemma FilterKeeps<T>(s: seq<T>, keep: T -> bool, x: T)
    ensures x in Filter(s, keep) <==> x in s && keep(x)
  {
    FilterMembers(s, keep);
  }
}
