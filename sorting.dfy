/** Stable sorting by an integer key, the behaviour of Array.prototype.sort
    with a numeric comparator (the language requires the sort to be stable).
    A descending sort is the ascending sort by the negated key. */
module Sorting {
  import opened Seqs

  /** Keys never decrease from left to right. */
  predicate SortedBy<T>(s: seq<T>, key: T -> int)
  {
    forall i, j :: 0 <= i < j < |s| ==> key(s[i]) <= key(s[j])
  }

  /** The elements whose key is `k`, in order. Stability means these
      subsequences are the same before and after sorting. */
  function WithKey<T>(s: seq<T>, key: T -> int, k: int): seq<T>
  {
    Filter(s, KeyIs(key, k))
  }

  /** The test "has key `k`". */
  function KeyIs<T>(key: T -> int, k: int): T -> bool
  {
    x => key(x) == k
  }

  /** Put `x` in front of the first element whose key is at least its own. */
  function InsertBy<T>(x: T, s: seq<T>, key: T -> int): seq<T>
    decreases |s|
  {
    if s == [] || key(x) <= key(s[0]) then [x] + s else [s[0]] + InsertBy(x, s[1..], key)
  }

  /** Insertion sort; each element goes in front of the equal keys that came after it. */
  function SortBy<T>(s: seq<T>, key: T -> int): seq<T>
    decreases |s|
  {
    if s == [] then [] else InsertBy(s[0], SortBy(s[1..], key), key)
  }

  lemma {:induction false} InsertByMultiset<T>(x: T, s: seq<T>, key: T -> int)
    ensures multiset(InsertBy(x, s, key)) == multiset{x} + multiset(s)
    decreases |s|
  {
    if !(s == [] || key(x) <= key(s[0])) {
      InsertByMultiset(x, s[1..], key);
      assert s == [s[0]] + s[1..];
    }
  }

  lemma {:induction false} InsertBySorted<T>(x: T, s: seq<T>, key: T -> int)
    requires SortedBy(s, key)
    ensures SortedBy(InsertBy(x, s, key), key)
    decreases |s|
  {
    if !(s == [] || key(x) <= key(s[0])) {
      var t := s[1..];
      InsertBySorted(x, t, key);
      InsertByMultiset(x, t, key);
      var r := InsertBy(x, s, key);
      var u := InsertBy(x, t, key);
      assert r == [s[0]] + u;
      forall j | 0 < j < |r|
        ensures key(s[0]) <= key(r[j])
      {
        assert r[j] == u[j - 1];
        assert r[j] in multiset(u);
        assert r[j] == x || r[j] in multiset(t);
      }
    }
  }

  lemma {:induction false} InsertByStable<T>(x: T, s: seq<T>, key: T -> int, k: int)
    ensures WithKey(InsertBy(x, s, key), key, k)
      == (if key(x) == k then [x] else []) + WithKey(s, key, k)
    decreases |s|
  {
    var p := KeyIs(key, k);
    if s == [] || key(x) <= key(s[0]) {
      assert ([x] + s)[1..] == s;
    } else {
      InsertByStable(x, s[1..], key, k);
      var u := InsertBy(x, s[1..], key);
      assert ([s[0]] + u)[1..] == u;
      assert Filter([s[0]] + u, p) == (if p(s[0]) then [s[0]] else []) + Filter(u, p);
    }
  }

  /** The sorted list is a permutation of the input. */
  lemma {:induction false} SortByPermutation<T>(s: seq<T>, key: T -> int)
    ensures multiset(SortBy(s, key)) == multiset(s)
    decreases |s|
  {
    if s != [] {
      SortByPermutation(s[1..], key);
      InsertByMultiset(s[0], SortBy(s[1..], key), key);
      assert s == [s[0]] + s[1..];
    }
  }

  /** The sorted list is ordered by key. */
  lemma {:induction false} SortBySorted<T>(s: seq<T>, key: T -> int)
    ensures SortedBy(SortBy(s, key), key)
    decreases |s|
  {
    if s != [] {
      SortBySorted(s[1..], key);
      InsertBySorted(s[0], SortBy(s[1..], key), key);
    }
  }

  /** The sort is stable: elements with equal keys keep their relative order. */
  lemma {:induction false} SortByStable<T>(s: seq<T>, key: T -> int, k: int)
    ensures WithKey(SortBy(s, key), key, k) == WithKey(s, key, k)
    decreases |s|
  {
    if s != [] {
      SortByStable(s[1..], key, k);
      InsertByStable(s[0], SortBy(s[1..], key), key, k);
    }
  }

  /** Sorting by the negated key groups the same elements: those with
      negated key `-k` are those with key `k`. */
  lemma WithNegatedKey<T>(s: seq<T>, key: T -> int, neg: T -> int, k: int)
    requires forall x :: neg(x) == -key(x)
    ensures WithKey(s, neg, -k) == WithKey(s, key, k)
  {
    FilterExtensional(s, KeyIs(neg, -k), KeyIs(key, k));
  }

  lemma {:induction false} SortByLength<T>(s: seq<T>, key: T -> int)
    ensures |SortBy(s, key)| == |s|
  {
    SortByPermutation(s, key);
    assert |multiset(SortBy(s, key))| == |multiset(s)|;
  }
}
