/** The two array algorithms the source borrows from JavaScript's library:
    `Array.prototype.filter` and `Array.prototype.sort` with a comparator of
    the form `(a, b) => key(a) - key(b)`. JavaScript's sort is stable, so the
    model is a stable insertion sort: elements with equal keys keep their
    relative order. A descending sort (`key(b) - key(a)`) is the ascending
    sort on the negated key. */
module Sorting {

  /** `s.filter(p)` */
  function Filter<T(==)>(s: seq<T>, p: T -> bool): (r: seq<T>)
    ensures |r| <= |s|
  {
    if s == [] then [] else (if p(s[0]) then [s[0]] else []) + Filter(s[1..], p)
  }

  /** The filter keeps exactly the elements that pass the test. */
  lemma {:induction false} FilterMembers<T>(s: seq<T>, p: T -> bool)
    ensures forall i :: 0 <= i < |Filter(s, p)| ==> Filter(s, p)[i] in s && p(Filter(s, p)[i])
    ensures forall i :: 0 <= i < |s| && p(s[i]) ==> s[i] in Filter(s, p)
  {
    if s != [] {
      FilterMembers(s[1..], p);
      var head := if p(s[0]) then [s[0]] else [];
      assert Filter(s, p) == head + Filter(s[1..], p);
      forall i | 0 <= i < |Filter(s, p)|
        ensures Filter(s, p)[i] in s && p(Filter(s, p)[i])
      {
        if i >= |head| {
          assert Filter(s, p)[i] == Filter(s[1..], p)[i - |head|];
        }
      }
      forall i | 0 <= i < |s| && p(s[i])
        ensures s[i] in Filter(s, p)
      {
        if i > 0 {
          assert s[i] == s[1..][i - 1];
        }
      }
    }
  }

  /** Filtering keeps the original order: it distributes over concatenation. */
  lemma {:induction false} FilterConcat<T>(a: seq<T>, b: seq<T>, p: T -> bool)
    ensures Filter(a + b, p) == Filter(a, p) + Filter(b, p)
  {
    if a == [] {
      assert a + b == b;
    } else {
      var head := if p(a[0]) then [a[0]] else [];
      assert (a + b)[0] == a[0];
      assert (a + b)[1..] == a[1..] + b;
      assert Filter(a + b, p) == head + Filter(a[1..] + b, p);
      FilterConcat(a[1..], b, p);
      assert Filter(a, p) == head + Filter(a[1..], p);
    }
  }

  /** A filter that rejects nothing returns its input. */
  lemma {:induction false} FilterKeepsAll<T>(s: seq<T>, p: T -> bool)
    requires forall i :: 0 <= i < |s| ==> p(s[i])
    ensures Filter(s, p) == s
  {
    if s != [] {
      FilterKeepsAll(s[1..], p);
    }
  }

  /** Keys never decrease along `s`. */
  predicate SortedBy<T>(s: seq<T>, key: T -> int) {
    forall i, j :: 0 <= i < j < |s| ==> key(s[i]) <= key(s[j])
  }

  /** Inserts `x` into the sorted `s` after every element whose key is not
      larger than `x`'s: the step of a stable insertion sort. */
  function InsertBy<T(==)>(s: seq<T>, x: T, key: T -> int): (r: seq<T>)
    ensures |r| == |s| + 1
    ensures multiset(r) == multiset(s) + multiset{x}
  {
    if s == [] then [x]
    else if key(s[|s| - 1]) <= key(x) then s + [x]
    else
      var init := s[..|s| - 1];
      assert s == init + [s[|s| - 1]];
      InsertBy(init, x, key) + [s[|s| - 1]]
  }

  lemma {:induction false} InsertBySorted<T>(s: seq<T>, x: T, key: T -> int)
    requires SortedBy(s, key)
    ensures SortedBy(InsertBy(s, x, key), key)
  {
    if s != [] && key(s[|s| - 1]) > key(x) {
      var last := s[|s| - 1];
      var init := s[..|s| - 1];
      assert s == init + [last];
      InsertBySorted(init, x, key);
      var r' := InsertBy(init, x, key);
      forall k | 0 <= k < |r'|
        ensures key(r'[k]) <= key(last)
      {
        assert r'[k] in multiset(r');
        assert r'[k] in multiset(init) || r'[k] == x;
      }
    }
  }

  /** `s.slice().sort((a, b) => key(a) - key(b))`: a stable sort by key. */
  function SortBy<T(==)>(s: seq<T>, key: T -> int): (r: seq<T>)
    ensures |r| == |s|
    ensures multiset(r) == multiset(s)
    ensures SortedBy(r, key)
  {
    if s == [] then []
    else
      var init := s[..|s| - 1];
      assert s == init + [s[|s| - 1]];
      InsertBySorted(SortBy(init, key), s[|s| - 1], key);
      InsertBy(SortBy(init, key), s[|s| - 1], key)
  }

  /** The descending sort `(a, b) => key(b) - key(a)`. */
  function SortByDescending<T(==)>(s: seq<T>, key: T -> int): (r: seq<T>)
    ensures |r| == |s|
    ensures multiset(r) == multiset(s)
    ensures forall i, j :: 0 <= i < j < |r| ==> key(r[i]) >= key(r[j])
  {
    var r := SortBy(s, Negated(key));
    assert forall i, j :: 0 <= i < j < |r| ==> Negated(key)(r[i]) <= Negated(key)(r[j]);
    r
  }

  /** The key of the descending comparator. */
  function Negated<T>(key: T -> int): T -> int
  {
    x => -key(x)
  }

  /** Sorting an already sorted sequence leaves it as it is (stability on
      the sorted input). */
  lemma {:induction false} SortBySorted<T>(s: seq<T>, key: T -> int)
    requires SortedBy(s, key)
    ensures SortBy(s, key) == s
  {
    if s != [] {
      var init := s[..|s| - 1];
      assert SortedBy(init, key);
      SortBySorted(init, key);
    }
  }

  /** Filtering one more element at the end. */
  lemma FilterSnoc<T>(s: seq<T>, x: T, p: T -> bool)
    ensures Filter(s + [x], p) == Filter(s, p) + (if p(x) then [x] else [])
  {
    FilterConcat(s, [x], p);
    assert [x][1..] == [];
  }

  /** An insertion puts `x` after every element with its key: among the
      elements `p` picks, all of key `k`, `x` comes last. */
  lemma {:induction false} InsertByStable<T>(s: seq<T>, x: T, key: T -> int, p: T -> bool, k: int)
    requires SortedBy(s, key)
    requires forall y :: p(y) ==> key(y) == k
    ensures Filter(InsertBy(s, x, key), p) == Filter(s, p) + (if p(x) then [x] else [])
  {
    var xs := if p(x) then [x] else [];
    if s == [] {
      assert InsertBy(s, x, key) == [] + [x];
      FilterSnoc([], x, p);
    } else if key(s[|s| - 1]) <= key(x) {
      assert InsertBy(s, x, key) == s + [x];
      FilterSnoc(s, x, p);
    } else {
      var last := s[|s| - 1];
      var init := s[..|s| - 1];
      var ls := if p(last) then [last] else [];
      assert s == init + [last];
      assert SortedBy(init, key);
      assert InsertBy(s, x, key) == InsertBy(init, x, key) + [last];
      InsertByStable(init, x, key, p, k);
      FilterSnoc(InsertBy(init, x, key), last, p);
      FilterSnoc(init, last, p);
      assert Filter(s, p) == Filter(init, p) + ls;
      assert xs == [] || ls == [];
      SwapEmpty(Filter(init, p), xs, ls);
    }
  }

  /** Of two sequences one of which is empty, the order does not matter. */
  lemma SwapEmpty<T>(a: seq<T>, xs: seq<T>, ls: seq<T>)
    requires xs == [] || ls == []
    ensures (a + xs) + ls == (a + ls) + xs
  {
    if xs == [] {
      assert a + xs == a;
      assert (a + ls) + xs == a + ls;
    } else {
      assert a + ls == a;
      assert (a + xs) + ls == a + xs;
    }
  }

  /** The sort is stable: elements of one key keep their relative order.
      `p` picks any elements of key `k`, for instance all of them. */
  lemma {:induction false} SortByStable<T>(s: seq<T>, key: T -> int, p: T -> bool, k: int)
    requires forall y :: p(y) ==> key(y) == k
    ensures Filter(SortBy(s, key), p) == Filter(s, p)
  {
    if s != [] {
      var init := s[..|s| - 1];
      var last := s[|s| - 1];
      assert s == init + [last];
      SortByStable(init, key, p, k);
      InsertByStable(SortBy(init, key), last, key, p, k);
      FilterSnoc(init, last, p);
    }
  }

  /** The descending sort is stable as well. */
  lemma SortByDescendingStable<T>(s: seq<T>, key: T -> int, p: T -> bool, k: int)
    requires forall y :: p(y) ==> key(y) == k
    ensures Filter(SortByDescending(s, key), p) == Filter(s, p)
  {
    assert SortByDescending(s, key) == SortBy(s, Negated(key));
    assert forall y :: p(y) ==> Negated(key)(y) == -k;
    SortByStable(s, Negated(key), p, -k);
  }

  /** `f` tells the elements of `s` apart (file names in a directory). */
  ghost predicate DistinctBy<T, U>(s: seq<T>, f: T -> U) {
    forall i, j :: 0 <= i < j < |s| ==> f(s[i]) != f(s[j])
  }

  lemma {:induction false} FilterDistinct<T, U>(s: seq<T>, p: T -> bool, f: T -> U)
    requires DistinctBy(s, f)
    ensures DistinctBy(Filter(s, p), f)
  {
    if s != [] {
      FilterDistinct(s[1..], p, f);
      FilterMembers(s[1..], p);
      var rest := Filter(s[1..], p);
      forall k | 0 <= k < |rest|
        ensures f(rest[k]) != f(s[0])
      {
        var j :| 0 <= j < |s[1..]| && s[1..][j] == rest[k];
        assert s[j + 1] == rest[k];
      }
    }
  }

  lemma {:induction false} InsertByDistinct<T, U>(s: seq<T>, x: T, key: T -> int, f: T -> U)
    requires DistinctBy(s, f)
    requires forall i :: 0 <= i < |s| ==> f(s[i]) != f(x)
    ensures DistinctBy(InsertBy(s, x, key), f)
  {
    if s != [] && key(s[|s| - 1]) > key(x) {
      var last := s[|s| - 1];
      var init := s[..|s| - 1];
      assert s == init + [last];
      InsertByDistinct(init, x, key, f);
      var r' := InsertBy(init, x, key);
      forall k | 0 <= k < |r'|
        ensures f(r'[k]) != f(last)
      {
        assert r'[k] in multiset(r');
        if r'[k] != x {
          assert r'[k] in init;
          var j :| 0 <= j < |init| && init[j] == r'[k];
          assert s[j] == r'[k];
        }
      }
    }
  }

  /** Sorting keeps elements that were told apart told apart. */
  lemma {:induction false} SortByDistinct<T, U>(s: seq<T>, key: T -> int, f: T -> U)
    requires DistinctBy(s, f)
    ensures DistinctBy(SortBy(s, key), f)
  {
    if s != [] {
      var init := s[..|s| - 1];
      var x := s[|s| - 1];
      assert s == init + [x];
      assert DistinctBy(init, f);
      SortByDistinct(init, key, f);
      var sorted := SortBy(init, key);
      forall k | 0 <= k < |sorted|
        ensures f(sorted[k]) != f(x)
      {
        assert sorted[k] in multiset(sorted);
        assert sorted[k] in init;
        var j :| 0 <= j < |init| && init[j] == sorted[k];
        assert s[j] == sorted[k];
      }
      InsertByDistinct(sorted, x, key, f);
    }
  }

  lemma SortByDescendingDistinct<T, U>(s: seq<T>, key: T -> int, f: T -> U)
    requires DistinctBy(s, f)
    ensures DistinctBy(SortByDescending(s, key), f)
  {
    SortByDistinct(s, Negated(key), f);
  }

  /** A position at which an element of `s` sits. */
  lemma Position<T>(s: seq<T>, x: T) returns (i: nat)
    requires x in s
    ensures i < |s| && s[i] == x
  {
    i :| 0 <= i < |s| && s[i] == x;
  }
}
