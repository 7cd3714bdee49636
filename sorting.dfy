/**
 * Python's `sorted(xs, key=k, reverse=True)`: a stable sort by a key in
 * non-increasing order. Stability and the permutation property are stated
 * together: for every key value the subsequence of elements carrying it is
 * unchanged by the sort.
 */
module Sorting {
  predicate SortedDesc<T>(s: seq<T>, key: T -> real)
  {
    forall i, j :: 0 <= i < j < |s| ==> key(s[i]) >= key(s[j])
  }

  /** The elements of `s` whose key is `k`, in their order in `s`. */
  function WithKey<T>(s: seq<T>, key: T -> real, k: real): seq<T>
  {
    if s == [] then [] else (if key(s[0]) == k then [s[0]] else []) + WithKey(s[1..], key, k)
  }

  /** Places `x` after every element of `s` with a larger key and before the rest. */
  function Insert<T>(x: T, s: seq<T>, key: T -> real): (r: seq<T>)
    ensures |r| == |s| + 1
    ensures multiset(r) == multiset(s) + multiset{x}
  {
    if s == [] || key(s[0]) <= key(x) then [x] + s
    else
      assert s == [s[0]] + s[1..];
      [s[0]] + Insert(x, s[1..], key)
  }

  lemma {:induction false} InsertBounded<T>(x: T, s: seq<T>, key: T -> real, b: real)
    requires forall i :: 0 <= i < |s| ==> key(s[i]) <= b
    requires key(x) <= b
    ensures forall i :: 0 <= i < |Insert(x, s, key)| ==> key(Insert(x, s, key)[i]) <= b
    decreases |s|
  {
    if s != [] && key(s[0]) > key(x) {
      InsertBounded(x, s[1..], key, b);
    }
  }

  lemma {:induction false} InsertSorted<T>(x: T, s: seq<T>, key: T -> real)
    requires SortedDesc(s, key)
    ensures SortedDesc(Insert(x, s, key), key)
    decreases |s|
  {
    if s != [] && key(s[0]) > key(x) {
      var rest := Insert(x, s[1..], key);
      InsertSorted(x, s[1..], key);
      InsertBounded(x, s[1..], key, key(s[0]));
      var r := [s[0]] + rest;
      assert forall j :: 1 <= j < |r| ==> r[j] == rest[j - 1];
    }
  }

  function SortDesc<T>(s: seq<T>, key: T -> real): (r: seq<T>)
    ensures |r| == |s|
    ensures multiset(r) == multiset(s)
    ensures SortedDesc(r, key)
  {
    if s == [] then []
    else
      assert s == [s[0]] + s[1..];
      InsertSorted(s[0], SortDesc(s[1..], key), key);
      Insert(s[0], SortDesc(s[1..], key), key)
  }

  lemma {:induction false} WithKeyCons<T>(x: T, s: seq<T>, key: T -> real, k: real)
    ensures WithKey([x] + s, key, k) == (if key(x) == k then [x] else []) + WithKey(s, key, k)
  {
    assert ([x] + s)[1..] == s;
  }

  lemma {:induction false} WithKeyInsert<T>(x: T, s: seq<T>, key: T -> real, k: real)
    requires SortedDesc(s, key)
    ensures WithKey(Insert(x, s, key), key, k) == (if key(x) == k then [x] else []) + WithKey(s, key, k)
    decreases |s|
  {
    if s == [] || key(s[0]) <= key(x) {
      WithKeyCons(x, s, key, k);
    } else {
      WithKeyInsert(x, s[1..], key, k);
      WithKeyCons(s[0], Insert(x, s[1..], key), key, k);
      assert s == [s[0]] + s[1..];
      WithKeyCons(s[0], s[1..], key, k);
    }
  }

  /** Equal keys keep their input order, and no element is lost or duplicated. */
  lemma {:induction false} SortDescStable<T>(s: seq<T>, key: T -> real, k: real)
    ensures WithKey(SortDesc(s, key), key, k) == WithKey(s, key, k)
    decreases |s|
  {
    if s != [] {
      SortDescStable(s[1..], key, k);
      WithKeyInsert(s[0], SortDesc(s[1..], key), key, k);
      assert s == [s[0]] + s[1..];
      WithKeyCons(s[0], s[1..], key, k);
    }
  }

  /** Filtering a prefix gives a prefix of the filtered sequence. */
  lemma {:induction false} WithKeyPrefix<T>(s: seq<T>, m: nat, key: T -> real, k: real)
    requires m <= |s|
    ensures WithKey(s[..m], key, k) <= WithKey(s, key, k)
    decreases m
  {
    if m > 0 {
      WithKeyPrefix(s[1..], m - 1, key, k);
      assert s[..m][1..] == s[1..][..m - 1];
    }
  }
}
