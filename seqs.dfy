/** Sequence facts shared by the stores and registries: distinct elements and prefixes. */
module Seqs {
  import opened Wrappers

  predicate Distinct<T(==)>(s: seq<T>) { forall i, j :: 0 <= i < j < |s| ==> s[i] != s[j] }

  /** A duplicate-free sequence has as many distinct elements as entries. */
  lemma {:induction false} SeqSetCard<T>(s: seq<T>)
    requires Distinct(s)
    ensures |set x | x in s| == |s|
    decreases |s|
  {
    if s != [] {
      SeqSetCard(s[1..]);
      assert (set x | x in s) == (set x | x in s[1..]) + {s[0]};
      assert s[0] !in s[1..];
    }
  }

  /** `s[:n]` for a non-negative `n`. */
  function Take<T>(s: seq<T>, n: nat): (r: seq<T>)
    ensures |r| == if n < |s| then n else |s|
    ensures forall i :: 0 <= i < |r| ==> r[i] == s[i]
  {
    if n < |s| then s[..n] else s
  }

  /** The first occurrence of every element, in order of first occurrence. */
  function Dedup<T(==,!new)>(s: seq<T>): (r: seq<T>)
    ensures Distinct(r)
    ensures forall x :: x in r <==> x in s
  {
    if s == [] then []
    else
      var d := Dedup(s[..|s| - 1]);
      var last := s[|s| - 1];
      assert forall x :: x in s <==> x in s[..|s| - 1] || x == last by {
        assert s == s[..|s| - 1] + [last];
      }
      if last in d then d
      else
        var r := d + [last];
        assert Distinct(r) by {
          forall i, j | 0 <= i < j < |r| ensures r[i] != r[j] {
            if j == |d| {
              assert r[i] in d;
            }
          }
        }
        r
  }

  /** A duplicate-free sequence holds every value at most once. */
  lemma {:induction false} DistinctMultiplicity<T>(s: seq<T>, x: T)
    requires Distinct(s)
    ensures multiset(s)[x] <= 1
    decreases |s|
  {
    if s != [] {
      assert s == [s[0]] + s[1..];
      assert Distinct(s[1..]) by {
        forall i, j | 0 <= i < j < |s[1..]| ensures s[1..][i] != s[1..][j] {
          assert s[1..][i] == s[i + 1] && s[1..][j] == s[j + 1];
        }
      }
      DistinctMultiplicity(s[1..], x);
      if x == s[0] {
        assert x !in s[1..];
        assert multiset(s[1..])[x] == 0;
      }
    }
  }

  /** A reordering of a duplicate-free sequence is duplicate-free. */
  lemma DistinctPerm<T>(a: seq<T>, b: seq<T>)
    requires Distinct(a) && multiset(a) == multiset(b)
    ensures Distinct(b)
  {
    forall i, j | 0 <= i < j < |b| ensures b[i] != b[j] {
      if b[i] == b[j] {
        var x := b[i];
        assert b == b[..j] + b[j..];
        assert x in b[..j] && x in b[j..];
        assert multiset(b[..j])[x] >= 1 && multiset(b[j..])[x] >= 1;
        assert multiset(b)[x] == multiset(b[..j])[x] + multiset(b[j..])[x];
        DistinctMultiplicity(a, x);
        assert false;
      }
    }
  }

  /** The number of elements of `s` that satisfy `p`. */
  function CountWhere<T>(s: seq<T>, p: T -> bool): (n: nat)
    ensures n <= |s|
  {
    if s == [] then 0 else CountWhere(s[..|s| - 1], p) + (if p(s[|s| - 1]) then 1 else 0)
  }

  /** The positions of `s` whose element satisfies `p`. */
  function Positions<T>(s: seq<T>, p: T -> bool): set<int>
  {
    set i | 0 <= i < |s| && p(s[i])
  }

  /** The count is the number of positions whose element satisfies `p`. */
  lemma {:induction false} CountWherePositions<T>(s: seq<T>, p: T -> bool)
    ensures CountWhere(s, p) == |Positions(s, p)|
    decreases |s|
  {
    if s != [] {
      var init := s[..|s| - 1];
      CountWherePositions(init, p);
      var n := |s| - 1;
      var a := Positions(init, p);
      var b := Positions(s, p);
      assert a == set i | 0 <= i < n && p(s[i]) by {
        forall i | 0 <= i < n ensures init[i] == s[i] {
        }
      }
      if p(s[n]) {
        assert b == a + {n};
        assert n !in a;
      } else {
        assert b == a;
      }
    }
  }

  /** Every item converted, in order; None as soon as one conversion fails. */
  function AllOrNone<A, B>(xs: seq<A>, f: A -> Option<B>): Option<seq<B>>
  {
    if xs == [] then Some([])
    else
      var init := AllOrNone(xs[..|xs| - 1], f);
      var last := f(xs[|xs| - 1]);
      if init.Some? && last.Some? then Some(init.value + [last.value]) else None
  }

  /** The batch converts exactly when every item does, and then yields their conversions in order. */
  lemma {:induction false} AllOrNoneMeans<A, B>(xs: seq<A>, f: A -> Option<B>)
    ensures var r := AllOrNone(xs, f);
      (r.Some? <==> forall i :: 0 <= i < |xs| ==> f(xs[i]).Some?) &&
      (r.Some? ==> (|r.value| == |xs| && forall i :: 0 <= i < |xs| ==> r.value[i] == f(xs[i]).value))
  {
    if xs != [] {
      var front := xs[..|xs| - 1];
      AllOrNoneMeans(front, f);
      assert forall i :: 0 <= i < |front| ==> front[i] == xs[i];
    }
  }

  /** Converting one more item of a prefix extends the batch by its conversion, or fails. */
  lemma AllOrNoneStep<A, B>(xs: seq<A>, f: A -> Option<B>, i: nat)
    requires i < |xs|
    ensures var init := AllOrNone(xs[..i], f);
      AllOrNone(xs[..i + 1], f) == if init.Some? && f(xs[i]).Some? then Some(init.value + [f(xs[i]).value]) else None
  {
    assert xs[..i + 1][..i] == xs[..i];
  }

  /** `[f(x) for x in xs]`. */
  function Mapped<A, B>(xs: seq<A>, f: A -> B): seq<B>
  {
    seq(|xs|, k requires 0 <= k < |xs| => f(xs[k]))
  }

  /** Mapping one more item of a prefix appends its image. */
  lemma MappedSnoc<A, B>(xs: seq<A>, f: A -> B, i: nat)
    requires i < |xs|
    ensures Mapped(xs[..i + 1], f) == Mapped(xs[..i], f) + [f(xs[i])]
  {
    var a, b := Mapped(xs[..i + 1], f), Mapped(xs[..i], f) + [f(xs[i])];
    forall k | 0 <= k < |a| ensures a[k] == b[k] {
      assert xs[..i + 1][k] == xs[k];
      if k < i {
        assert xs[..i][k] == xs[k];
      }
    }
  }
}
