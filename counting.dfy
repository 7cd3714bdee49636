/**
 * Counting dictionaries as the backend builds them: `d[k] = d.get(k, 0) + 1`
 * in a loop, with keys remembered in insertion order (Python dictionaries
 * iterate that way), and the "top n by count" lists sorted from them.
 */
module Counting {
  import opened Seqs
  import Sorting

  datatype Counter = Counter(keys: seq<string>, counts: map<string, int>)

  ghost predicate WellFormed(c: Counter)
  {
    Distinct(c.keys) && (forall k :: k in c.counts <==> k in c.keys)
  }

  function Empty(): (c: Counter)
    ensures WellFormed(c) && c.keys == []
  {
    Counter([], map[])
  }

  /** `d.get(k, 0)`. */
  function CountOf(c: Counter, k: string): int
  {
    if k in c.counts then c.counts[k] else 0
  }

  /** The number of positions of `ks` holding `x`. */
  function Occurrences(ks: seq<string>, x: string): (n: nat)
    ensures n <= |ks|
  {
    if ks == [] then 0 else Occurrences(ks[..|ks| - 1], x) + (if ks[|ks| - 1] == x then 1 else 0)
  }

  /** `d[k] = d.get(k, 0) + 1`: a new key goes to the end of the key order. */
  function Bump(c: Counter, k: string): (r: Counter)
    requires WellFormed(c)
    ensures WellFormed(r)
    ensures CountOf(r, k) == CountOf(c, k) + 1
    ensures forall x :: x != k ==> CountOf(r, x) == CountOf(c, x)
    ensures r.keys == if k in c.keys then c.keys else c.keys + [k]
  {
    if k in c.counts then Counter(c.keys, c.counts[k := c.counts[k] + 1])
    else
      var keys := c.keys + [k];
      assert Distinct(keys) by {
        forall i, j | 0 <= i < j < |keys| ensures keys[i] != keys[j] {
          if j == |c.keys| {
            assert keys[i] in c.keys;
          }
        }
      }
      Counter(keys, c.counts[k := 1])
  }

  /** Bumping once per element of `ks`, in order. */
  function BumpAll(c: Counter, ks: seq<string>): (r: Counter)
    requires WellFormed(c)
    ensures WellFormed(r)
    ensures forall x :: CountOf(r, x) == CountOf(c, x) + Occurrences(ks, x)
    decreases |ks|
  {
    if ks == [] then c else Bump(BumpAll(c, ks[..|ks| - 1]), ks[|ks| - 1])
  }

  lemma BumpAllSnoc(c: Counter, ks: seq<string>, k: string)
    requires WellFormed(c)
    ensures BumpAll(c, ks + [k]) == Bump(BumpAll(c, ks), k)
  {
    assert (ks + [k])[..|ks|] == ks;
  }

  /** `for k in ks: d[k] = d.get(k, 0) + 1`. */
  method BumpEach(c: Counter, ks: seq<string>) returns (r: Counter)
    requires WellFormed(c)
    ensures r == BumpAll(c, ks)
  {
    r := c;
    var k := 0;
    while k < |ks|
      invariant 0 <= k <= |ks|
      invariant WellFormed(r) && r == BumpAll(c, ks[..k])
    {
      assert ks[..k + 1][..k] == ks[..k];
      r := Bump(r, ks[k]);
      k := k + 1;
    }
    assert ks[..k] == ks;
  }

  function SumOver(keys: seq<string>, counts: map<string, int>): int
    requires forall k :: k in keys ==> k in counts
  {
    if keys == [] then 0 else SumOver(keys[..|keys| - 1], counts) + counts[keys[|keys| - 1]]
  }

  /** The sum of all counts. */
  function Total(c: Counter): int
    requires WellFormed(c)
  {
    SumOver(c.keys, c.counts)
  }

  lemma {:induction false} SumOverOther(keys: seq<string>, counts: map<string, int>, k: string, v: int)
    requires forall x :: x in keys ==> x in counts
    requires k !in keys
    ensures SumOver(keys, counts[k := v]) == SumOver(keys, counts)
    decreases |keys|
  {
    if keys != [] {
      SumOverOther(keys[..|keys| - 1], counts, k, v);
    }
  }

  lemma {:induction false} SumOverBump(keys: seq<string>, counts: map<string, int>, k: string)
    requires forall x :: x in keys ==> x in counts
    requires Distinct(keys) && k in keys
    ensures SumOver(keys, counts[k := counts[k] + 1]) == SumOver(keys, counts) + 1
    decreases |keys|
  {
    var init := keys[..|keys| - 1];
    var last := keys[|keys| - 1];
    if last == k {
      assert k !in init by {
        forall i | 0 <= i < |init| ensures init[i] != k {
          assert init[i] == keys[i];
        }
      }
      SumOverOther(init, counts, k, counts[k] + 1);
    } else {
      assert k in init by {
        var i :| 0 <= i < |keys| && keys[i] == k;
        assert i < |keys| - 1 && init[i] == k;
      }
      assert Distinct(init) by {
        forall i, j | 0 <= i < j < |init| ensures init[i] != init[j] {
          assert init[i] == keys[i] && init[j] == keys[j];
        }
      }
      SumOverBump(init, counts, k);
    }
  }

  /** One bump adds one to the total. */
  lemma TotalBump(c: Counter, k: string)
    requires WellFormed(c)
    ensures Total(Bump(c, k)) == Total(c) + 1
  {
    var r := Bump(c, k);
    if k in c.counts {
      assert r == Counter(c.keys, c.counts[k := c.counts[k] + 1]);
      SumOverBump(c.keys, c.counts, k);
    } else {
      assert r == Counter(c.keys + [k], c.counts[k := 1]);
      assert (c.keys + [k])[..|c.keys|] == c.keys;
      assert SumOver(c.keys + [k], c.counts[k := 1]) == SumOver(c.keys, c.counts[k := 1]) + 1;
      SumOverOther(c.keys, c.counts, k, 1);
    }
  }

  /** The total counts every bumped element, so it is the number of bumps. */
  lemma {:induction false} TotalBumpAll(c: Counter, ks: seq<string>)
    requires WellFormed(c)
    ensures Total(BumpAll(c, ks)) == Total(c) + |ks|
    decreases |ks|
  {
    if ks != [] {
      TotalBumpAll(c, ks[..|ks| - 1]);
      TotalBump(BumpAll(c, ks[..|ks| - 1]), ks[|ks| - 1]);
    }
  }

  /** `[(k, v) for k, v in d.items()]`. */
  function Entries(c: Counter): (es: seq<(string, int)>)
    requires forall k :: k in c.keys ==> k in c.counts
    ensures |es| == |c.keys| && forall i :: 0 <= i < |es| ==> es[i] == (c.keys[i], c.counts[c.keys[i]])
    decreases |c.keys|
  {
    if c.keys == [] then []
    else Entries(Counter(c.keys[..|c.keys| - 1], c.counts)) + [(c.keys[|c.keys| - 1], c.counts[c.keys[|c.keys| - 1]])]
  }

  function EntryCount(e: (string, int)): real { e.1 as real }

  function SumCounts(es: seq<(string, int)>): int
  {
    if es == [] then 0 else es[0].1 + SumCounts(es[1..])
  }

  lemma {:induction false} SumCountsAppend(a: seq<(string, int)>, b: seq<(string, int)>)
    ensures SumCounts(a + b) == SumCounts(a) + SumCounts(b)
    decreases |a|
  {
    if a != [] {
      assert (a + b)[1..] == a[1..] + b;
      SumCountsAppend(a[1..], b);
    } else {
      assert a + b == b;
    }
  }

  /** Taking one entry out of a sequence takes its count out of the sum. */
  lemma SumCountsRemove(b: seq<(string, int)>, j: nat)
    requires j < |b|
    ensures SumCounts(b) == b[j].1 + SumCounts(b[..j] + b[j + 1..])
  {
    var pre, post := b[..j], b[j + 1..];
    var mid := [b[j]] + post;
    assert b == pre + mid;
    SumCountsAppend(pre, mid);
    assert mid[0] == b[j] && mid[1..] == post;
    assert SumCounts(mid) == b[j].1 + SumCounts(post);
    SumCountsAppend(pre, post);
  }

  /** Taking one entry out of a sequence takes one occurrence out of its multiset. */
  lemma MultisetWithout<T>(b: seq<T>, j: nat)
    requires j < |b|
    ensures multiset(b[..j] + b[j + 1..]) == multiset(b) - multiset{b[j]}
  {
    assert b == b[..j] + [b[j]] + b[j + 1..];
  }

  /** An element of a sequence's multiset sits at some index of it. */
  lemma IndexIn<T>(b: seq<T>, x: T) returns (j: nat)
    requires x in multiset(b)
    ensures j < |b| && b[j] == x
  {
    assert x in b;
    j :| j < |b| && b[j] == x;
  }

  /** Matching the first entry of `a` with an equal entry of `b` leaves two permutations of each other. */
  lemma PermStep(a: seq<(string, int)>, b: seq<(string, int)>) returns (rest: seq<(string, int)>)
    requires a != [] && multiset(a) == multiset(b)
    ensures multiset(a[1..]) == multiset(rest)
    ensures SumCounts(b) == a[0].1 + SumCounts(rest)
  {
    var x := a[0];
    assert x in multiset(a);
    var j := IndexIn(b, x);
    rest := b[..j] + b[j + 1..];
    MultisetWithout(a, 0);
    assert a[..0] + a[1..] == a[1..];
    MultisetWithout(b, j);
    SumCountsRemove(b, j);
  }

  /** Reordering entries keeps their sum. */
  lemma {:induction false} SumCountsPerm(a: seq<(string, int)>, b: seq<(string, int)>)
    requires multiset(a) == multiset(b)
    ensures SumCounts(a) == SumCounts(b)
    decreases |a|
  {
    if a != [] {
      var rest := PermStep(a, b);
      SumCountsPerm(a[1..], rest);
    } else {
      assert |b| == |multiset(b)|;
    }
  }

  /** The entries' counts add up to the counter's total. */
  lemma {:induction false} EntriesSum(c: Counter)
    requires forall k :: k in c.keys ==> k in c.counts
    ensures SumCounts(Entries(c)) == SumOver(c.keys, c.counts)
    decreases |c.keys|
  {
    if c.keys != [] {
      var init := Counter(c.keys[..|c.keys| - 1], c.counts);
      var last := c.keys[|c.keys| - 1];
      EntriesSum(init);
      SumCountsAppend(Entries(init), [(last, c.counts[last])]);
    }
  }

  /** An entry carries its key's count. */
  lemma EntryCountOf(c: Counter, e: (string, int))
    requires WellFormed(c) && e in Entries(c)
    ensures CountOf(c, e.0) == e.1
  {
    var es := Entries(c);
    var k :| 0 <= k < |es| && es[k] == e;
    assert e == (c.keys[k], c.counts[c.keys[k]]);
  }

  /** `sorted(entries, key=count, reverse=True)`, stable. */
  function Ranked(c: Counter): (r: seq<(string, int)>)
    requires WellFormed(c)
    ensures |r| == |c.keys|
    ensures multiset(r) == multiset(Entries(c))
    ensures Sorting.SortedDesc(r, EntryCount)
  {
    Sorting.SortDesc(Entries(c), EntryCount)
  }

  /** The first `n` entries of the ranking: `sorted(...)[:n]`. */
  function Top(c: Counter, n: nat): (r: seq<(string, int)>)
    requires WellFormed(c)
    ensures |r| == if n < |c.keys| then n else |c.keys|
    ensures forall i :: 0 <= i < |r| ==> r[i] == Ranked(c)[i]
    ensures forall i, j :: 0 <= i < j < |r| ==> r[i].1 >= r[j].1
    ensures forall i :: 0 <= i < |r| ==> r[i] in Entries(c)
  {
    var ranked := Ranked(c);
    var r := Take(ranked, n);
    forall i, j | 0 <= i < j < |r| ensures r[i].1 >= r[j].1 {
      assert r[i] == ranked[i] && r[j] == ranked[j];
      assert EntryCount(ranked[i]) >= EntryCount(ranked[j]);
    }
    forall i | 0 <= i < |r| ensures r[i] in Entries(c) {
      assert r[i] == ranked[i];
      assert ranked[i] in multiset(ranked);
    }
    r
  }

  /** Counting from an empty dictionary remembers the keys in order of first occurrence. */
  lemma {:induction false} BumpAllKeys(ks: seq<string>)
    ensures BumpAll(Empty(), ks).keys == Dedup(ks)
    decreases |ks|
  {
    if ks != [] {
      BumpAllKeys(ks[..|ks| - 1]);
    }
  }

  /** A ranked entry is a key of the counter paired with its count. */
  lemma RankedEntries(c: Counter)
    requires WellFormed(c)
    ensures forall i :: 0 <= i < |Ranked(c)| ==> Ranked(c)[i].0 in c.keys && Ranked(c)[i].1 == CountOf(c, Ranked(c)[i].0)
  {
    var r := Ranked(c);
    forall i | 0 <= i < |r| ensures r[i].0 in c.keys && r[i].1 == CountOf(c, r[i].0) {
      assert r[i] in multiset(r);
      assert r[i] in Entries(c);
    }
  }

  /** No key is ranked twice. */
  lemma RankedDistinct(c: Counter)
    requires WellFormed(c)
    ensures forall i, j :: 0 <= i < j < |Ranked(c)| ==> Ranked(c)[i].0 != Ranked(c)[j].0
  {
    var es := Entries(c);
    var r := Ranked(c);
    assert Distinct(es) by {
      forall i, j | 0 <= i < j < |es| ensures es[i] != es[j] {
        assert es[i].0 == c.keys[i] && es[j].0 == c.keys[j];
      }
    }
    DistinctPerm(es, r);
    RankedEntries(c);
    forall i, j | 0 <= i < j < |r| ensures r[i].0 != r[j].0 {
      if r[i].0 == r[j].0 {
        assert false;
      }
    }
  }

  /** An entry left out of the top `n` has no larger count than any entry in it. */
  lemma TopMostFrequent(c: Counter, n: nat, e: (string, int))
    requires WellFormed(c) && e in Entries(c) && e !in Top(c, n)
    ensures forall i :: 0 <= i < |Top(c, n)| ==> e.1 <= Top(c, n)[i].1
  {
    var r := Ranked(c);
    var top := Top(c, n);
    forall m | 0 <= m < |top| ensures r[m] != e {
      assert top[m] == r[m] && top[m] in top;
    }
    assert e in multiset(r);
    var j := IndexIn(r, e);
    assert j >= |top|;
    forall i | 0 <= i < |top| ensures e.1 <= top[i].1 {
      assert top[i] == r[i];
      assert EntryCount(r[i]) >= EntryCount(r[j]);
    }
  }

  /**
   * Ties keep dictionary order up to the cut: the entries of the top `n` with
   * count `k` are the first entries with count `k` in insertion order.
   */
  lemma TopTies(c: Counter, n: nat, k: real)
    requires WellFormed(c)
    ensures Sorting.WithKey(Top(c, n), EntryCount, k) <= Sorting.WithKey(Entries(c), EntryCount, k)
  {
    var r := Ranked(c);
    var top := Top(c, n);
    assert top == r[..|top|];
    Sorting.WithKeyPrefix(r, |top|, EntryCount, k);
    Sorting.SortDescStable(Entries(c), EntryCount, k);
  }

  /** A key left out of the top `n` has no larger count than any key in it. */
  lemma TopKeyMostFrequent(c: Counter, n: nat, w: string)
    requires WellFormed(c) && w in c.keys
    requires forall i :: 0 <= i < |Top(c, n)| ==> Top(c, n)[i].0 != w
    ensures forall i :: 0 <= i < |Top(c, n)| ==> CountOf(c, w) <= CountOf(c, Top(c, n)[i].0)
  {
    var top := Top(c, n);
    var es := Entries(c);
    var k :| 0 <= k < |c.keys| && c.keys[k] == w;
    var e := es[k];
    assert e.0 == w;
    assert e !in top;
    EntryCountOf(c, e);
    TopMostFrequent(c, n, e);
    forall i | 0 <= i < |top| ensures CountOf(c, w) <= CountOf(c, top[i].0) {
      assert top[i] == Ranked(c)[i];
      assert top[i] in multiset(Ranked(c));
      EntryCountOf(c, top[i]);
    }
  }
}
