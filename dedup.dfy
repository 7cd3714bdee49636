/**
 * The deduplication service: exact duplicates by a content hash, near
 * duplicates by SimHash (bit voting over token hashes, compared by Hamming
 * distance), both against "seen" tables that a batch fills in order; and
 * MinHash signatures over character shingles.
 *
 * Text cleaning, MD5 and the token and shingle hashes are parameters.
 */
module Dedup {
  import opened Wrappers
  import opened Seqs
  import Text
  import Sorting

  /** The width of a SimHash. */
  const HashBits: nat := 64

  function Pow2(i: nat): (r: nat)
    ensures r >= 1
  {
    if i == 0 then 1 else 2 * Pow2(i - 1)
  }

  /** `(h >> i) & 1 == 1`, shifting one place at a time. */
  predicate Bit(h: nat, i: nat)
  {
    if i == 0 then h % 2 == 1 else Bit(h / 2, i - 1)
  }

  /** The number whose binary digits, lowest first, are `bs`. */
  function FromBits(bs: seq<bool>): nat
  {
    if bs == [] then 0 else (if bs[0] then 1 else 0) + 2 * FromBits(bs[1..])
  }

  lemma {:induction false} FromBitsBound(bs: seq<bool>)
    ensures FromBits(bs) < Pow2(|bs|)
    decreases |bs|
  {
    if bs != [] {
      FromBitsBound(bs[1..]);
    }
  }

  /** Digit `i` of `FromBits(bs)` is `bs[i]`. */
  lemma {:induction false} FromBitsBit(bs: seq<bool>, i: nat)
    requires i < |bs|
    ensures Bit(FromBits(bs), i) <==> bs[i]
    decreases i
  {
    if i > 0 {
      assert FromBits(bs) / 2 == FromBits(bs[1..]);
      FromBitsBit(bs[1..], i - 1);
    }
  }

  lemma {:induction false} FromBitsSnoc(bs: seq<bool>, b: bool)
    ensures FromBits(bs + [b]) == FromBits(bs) + (if b then Pow2(|bs|) else 0)
    decreases |bs|
  {
    if bs == [] {
      assert ([b])[1..] == [];
    } else {
      assert (bs + [b])[1..] == bs[1..] + [b];
      FromBitsSnoc(bs[1..], b);
    }
  }

  // ------------------------------------------------------------ SimHash

  /** The number of tokens whose hash has bit `i` set. */
  function Ones(tokens: seq<string>, tokenHash: string -> nat, i: nat): (n: nat)
    ensures n <= |tokens|
  {
    if tokens == [] then 0
    else Ones(tokens[..|tokens| - 1], tokenHash, i) + (if Bit(tokenHash(tokens[|tokens| - 1]), i) then 1 else 0)
  }

  /** `bit_counts[i]` after the token loop: one up per token with bit `i` set, one down per other token. */
  function Votes(tokens: seq<string>, tokenHash: string -> nat, i: nat): (v: int)
    ensures v == Ones(tokens, tokenHash, i) - (|tokens| - Ones(tokens, tokenHash, i))
  {
    if tokens == [] then 0
    else Votes(tokens[..|tokens| - 1], tokenHash, i) + (if Bit(tokenHash(tokens[|tokens| - 1]), i) then 1 else -1)
  }

  /** Which of the first `n` bits won their vote. */
  function VoteBits(tokens: seq<string>, tokenHash: string -> nat, n: nat): (bs: seq<bool>)
    ensures |bs| == n && forall i :: 0 <= i < n ==> bs[i] == (Votes(tokens, tokenHash, i) > 0)
  {
    if n == 0 then [] else VoteBits(tokens, tokenHash, n - 1) + [Votes(tokens, tokenHash, n - 1) > 0]
  }

  /** `_compute_simhash` of a token list, with `bits` the width `hash_bits`. */
  function SimHashOf(tokens: seq<string>, tokenHash: string -> nat, bits: nat): nat
  {
    if tokens == [] then 0 else FromBits(VoteBits(tokens, tokenHash, bits))
  }

  /**
   * No tokens give 0; otherwise bit `i` is set exactly when strictly more
   * tokens have it set than unset, and the hash fits in `bits` bits.
   */
  lemma SimHashBits(tokens: seq<string>, tokenHash: string -> nat, bits: nat, i: nat)
    requires i < bits
    ensures tokens == [] ==> SimHashOf(tokens, tokenHash, bits) == 0
    ensures SimHashOf(tokens, tokenHash, bits) < Pow2(bits)
    ensures Bit(SimHashOf(tokens, tokenHash, bits), i) <==> Ones(tokens, tokenHash, i) > |tokens| - Ones(tokens, tokenHash, i)
  {
    if tokens != [] {
      FromBitsBound(VoteBits(tokens, tokenHash, bits));
      FromBitsBit(VoteBits(tokens, tokenHash, bits), i);
    }
  }

  /** The inner loop for one token: each counter goes up if the token hash has its bit set, else down. */
  method Vote(counts: array<int>, h: nat)
    modifies counts
    ensures forall j :: 0 <= j < counts.Length ==> counts[j] == old(counts[j]) + (if Bit(h, j) then 1 else -1)
  {
    var i := 0;
    while i < counts.Length
      invariant 0 <= i <= counts.Length
      invariant forall j :: 0 <= j < i ==> counts[j] == old(counts[j]) + (if Bit(h, j) then 1 else -1)
      invariant forall j :: i <= j < counts.Length ==> counts[j] == old(counts[j])
    {
      if Bit(h, i) {
        counts[i] := counts[i] + 1;
      } else {
        counts[i] := counts[i] - 1;
      }
      i := i + 1;
    }
  }

  /** The token loop over a fresh `bit_counts` array. */
  method TallyBits(tokens: seq<string>, tokenHash: string -> nat, bits: nat) returns (counts: array<int>)
    ensures fresh(counts) && counts.Length == bits
    ensures forall j :: 0 <= j < bits ==> counts[j] == Votes(tokens, tokenHash, j)
  {
    counts := new int[bits](_ => 0);
    var t := 0;
    while t < |tokens|
      invariant 0 <= t <= |tokens|
      invariant forall j :: 0 <= j < bits ==> counts[j] == Votes(tokens[..t], tokenHash, j)
    {
      assert tokens[..t + 1][..t] == tokens[..t];
      Vote(counts, tokenHash(tokens[t]));
      t := t + 1;
    }
    assert tokens[..t] == tokens;
  }

  /** `_compute_simhash`: split, vote, then set the bits that won. */
  method ComputeSimhash(text: string, tokenHash: string -> nat, bits: nat) returns (simhash: nat)
    ensures simhash == SimHashOf(Text.Split(text), tokenHash, bits)
  {
    var tokens := Text.Split(text);
    if tokens == [] {
      return 0;
    }
    var counts := TallyBits(tokens, tokenHash, bits);
    var votes := counts[..];
    ghost var won := VoteBits(tokens, tokenHash, bits);
    simhash := 0;
    var i := 0;
    while i < bits
      invariant 0 <= i <= bits
      invariant simhash == FromBits(won[..i])
    {
      assert won[..i + 1] == won[..i] + [won[i]];
      FromBitsSnoc(won[..i], won[i]);
      assert won[i] == (votes[i] > 0) && |won[..i]| == i;
      // bit i of simhash is still clear, so `simhash |= 1 << i` adds 2^i
      if votes[i] > 0 {
        simhash := simhash + Pow2(i);
      }
      i := i + 1;
    }
    assert won[..i] == won;
  }

  /** The number of bits below `n` where the two hashes differ. */
  function Hamming(h1: nat, h2: nat, n: nat): (d: nat)
    ensures d <= n
  {
    if n == 0 then 0 else Hamming(h1, h2, n - 1) + (if Bit(h1, n - 1) != Bit(h2, n - 1) then 1 else 0)
  }

  /** `_simhash_similarity`: one minus the fraction of the `bits` low bits that differ. */
  function Similarity(h1: nat, h2: nat, bits: nat): (r: real)
    requires bits > 0
    ensures 0.0 <= r <= 1.0
  {
    1.0 - (Hamming(h1, h2, bits) as real) / (bits as real)
  }

  lemma {:induction false} HammingSymmetric(h1: nat, h2: nat, n: nat)
    ensures Hamming(h1, h2, n) == Hamming(h2, h1, n)
  {
    if n > 0 {
      HammingSymmetric(h1, h2, n - 1);
    }
  }

  lemma {:induction false} HammingZero(h1: nat, h2: nat, n: nat)
    ensures Hamming(h1, h2, n) == 0 <==> forall i :: 0 <= i < n ==> (Bit(h1, i) <==> Bit(h2, i))
  {
    if n > 0 {
      HammingZero(h1, h2, n - 1);
      if Hamming(h1, h2, n) == 0 {
        forall i | 0 <= i < n ensures Bit(h1, i) <==> Bit(h2, i) {
          if i < n - 1 {
            assert 0 <= i < n - 1;
          }
        }
      }
      if forall i :: 0 <= i < n ==> (Bit(h1, i) <==> Bit(h2, i)) {
        forall i | 0 <= i < n - 1 ensures Bit(h1, i) <==> Bit(h2, i) {
          assert 0 <= i < n;
        }
        assert Bit(h1, n - 1) <==> Bit(h2, n - 1);
      }
    }
  }

  /** Similarity is symmetric, and it is 1 exactly when all `bits` low bits agree. */
  lemma SimilarityProperties(h1: nat, h2: nat, bits: nat)
    requires bits > 0
    ensures Similarity(h1, h2, bits) == Similarity(h2, h1, bits)
    ensures Similarity(h1, h2, bits) == 1.0 <==> forall i :: 0 <= i < bits ==> (Bit(h1, i) <==> Bit(h2, i))
    ensures Similarity(h1, h1, bits) == 1.0
  {
    HammingSymmetric(h1, h2, bits);
    HammingZero(h1, h2, bits);
    HammingZero(h1, h1, bits);
  }

  // ------------------------------------------------------------ duplicate checks

  /** `_clean_text`, MD5 of a string, the integer MD5 of a token, and the SimHash width `hash_bits`. */
  datatype Hashers = Hashers(clean: string -> string, md5: string -> string, tokenHash: string -> nat, bits: nat)

  /** `_seen_hashes`, and `_seen_simhashes` with its keys in insertion order. */
  datatype Seen = Seen(hashes: map<string, string>, simKeys: seq<nat>, simIds: map<nat, string>)

  ghost predicate SeenWellFormed(s: Seen)
  {
    Distinct(s.simKeys) && forall k :: k in s.simIds <==> k in s.simKeys
  }

  function NoneSeen(): (s: Seen)
    ensures SeenWellFormed(s)
  {
    Seen(map[], [], map[])
  }

  /** `(is_exact_duplicate, is_near_duplicate, original_id)`. */
  datatype Verdict = Verdict(isExact: bool, isNear: bool, originalId: Option<string>)

  function ContentHash(hs: Hashers, content: string): string
  {
    hs.md5(hs.clean(content))
  }

  function ContentSimhash(hs: Hashers, content: string): nat
  {
    SimHashOf(Text.Split(hs.clean(content)), hs.tokenHash, hs.bits)
  }

  /** The first seen SimHash, in insertion order, that is at least `threshold` similar to `h`. */
  function FirstNear(keys: seq<nat>, h: nat, threshold: real, bits: nat): (r: Option<nat>)
    requires bits > 0
    ensures r.None? <==> forall i :: 0 <= i < |keys| ==> Similarity(h, keys[i], bits) < threshold
    ensures r.Some? ==>
      exists i :: 0 <= i < |keys| && keys[i] == r.value && Similarity(h, keys[i], bits) >= threshold &&
                  forall j :: 0 <= j < i ==> Similarity(h, keys[j], bits) < threshold
  {
    if keys == [] then None
    else if Similarity(h, keys[0], bits) >= threshold then Some(keys[0])
    else
      var r := FirstNear(keys[1..], h, threshold, bits);
      assert forall i :: 1 <= i < |keys| ==> keys[i] == keys[1..][i - 1];
      r
  }

  /** Both tables record the newcomer; a SimHash already present keeps its place. */
  function Remember(s: Seen, hash: string, simhash: nat, itemId: string): (r: Seen)
    requires SeenWellFormed(s)
    ensures SeenWellFormed(r)
    ensures r.hashes == s.hashes[hash := itemId] && r.simIds == s.simIds[simhash := itemId]
  {
    var keys := if simhash in s.simIds then s.simKeys else s.simKeys + [simhash];
    assert Distinct(keys) by {
      forall i, j | 0 <= i < j < |keys| ensures keys[i] != keys[j] {
        if j == |s.simKeys| {
          assert keys[i] in s.simKeys;
        }
      }
    }
    Seen(s.hashes[hash := itemId], keys, s.simIds[simhash := itemId])
  }

  /** `check_duplicate` against the seen tables `s`, with the tables afterwards. */
  function Check(s: Seen, hs: Hashers, threshold: real, content: string, itemId: string): (r: (Verdict, Seen))
    requires hs.bits > 0
    requires SeenWellFormed(s)
    ensures SeenWellFormed(r.1)
  {
    if content == "" then (Verdict(false, false, None), s)
    else
      var hash := ContentHash(hs, content);
      if hash in s.hashes then (Verdict(true, false, Some(s.hashes[hash])), s)
      else
        var simhash := ContentSimhash(hs, content);
        var near := FirstNear(s.simKeys, simhash, threshold, hs.bits);
        if near.Some? then
          assert near.value in s.simKeys;
          (Verdict(false, true, Some(s.simIds[near.value])), s)
        else (Verdict(false, false, None), Remember(s, hash, simhash, itemId))
  }

  /**
   * Empty content is never a duplicate and changes nothing. Otherwise the
   * item is an exact duplicate iff its hash was seen, else a near duplicate
   * iff some seen SimHash is similar enough, the original being the id
   * recorded for that hash or for the first such SimHash; a duplicate leaves
   * the tables alone, and a newcomer is recorded in both.
   */
  lemma CheckVerdict(s: Seen, hs: Hashers, threshold: real, content: string, itemId: string)
    requires hs.bits > 0
    requires SeenWellFormed(s)
    ensures var r := Check(s, hs, threshold, content, itemId);
      !(r.0.isExact && r.0.isNear) &&
      (content == "" ==> r == (Verdict(false, false, None), s)) &&
      (r.0.isExact <==> content != "" && ContentHash(hs, content) in s.hashes) &&
      (r.0.isExact ==> r.0.originalId == Some(s.hashes[ContentHash(hs, content)])) &&
      (r.0.isNear <==>
         content != "" && ContentHash(hs, content) !in s.hashes && FirstNear(s.simKeys, ContentSimhash(hs, content), threshold, hs.bits).Some?) &&
      (r.0.isNear ==> r.0.originalId == Some(s.simIds[FirstNear(s.simKeys, ContentSimhash(hs, content), threshold, hs.bits).value])) &&
      (r.0.isExact || r.0.isNear ==> r.1 == s) &&
      (content != "" && !r.0.isExact && !r.0.isNear ==>
         r.0 == Verdict(false, false, None) && r.1 == Remember(s, ContentHash(hs, content), ContentSimhash(hs, content), itemId))
  {
  }

  /** An item dictionary after `deduplicate_batch` has added its four flags. */
  datatype Flagged = Flagged(item: map<string, string>, isDuplicate: bool, isExactDuplicate: bool,
                             isNearDuplicate: bool, duplicateOf: Option<string>)

  /** `item.get(content_field, "")`. */
  function ContentOf(item: map<string, string>, field: string): string
  {
    if field in item then item[field] else ""
  }

  /** `item.get(id_field, str(id(item)))`; `objectIds(i)` is the identity of the `i`-th item. */
  function IdOf(items: seq<map<string, string>>, i: nat, field: string, objectIds: nat -> string): string
    requires i < |items|
  {
    if field in items[i] then items[i][field] else objectIds(i)
  }

  datatype Fields = Fields(content: string, id: string, objectIds: nat -> string)

  function Flag(item: map<string, string>, v: Verdict): (f: Flagged)
    ensures f.item == item && (f.isDuplicate <==> v.isExact || v.isNear)
    ensures f.isExactDuplicate == v.isExact && f.isNearDuplicate == v.isNear && f.duplicateOf == v.originalId
  {
    Flagged(item, v.isExact || v.isNear, v.isExact, v.isNear, v.originalId)
  }

  /** `deduplicate_batch`'s verdicts on the first `k` items, starting from empty tables, and the tables afterwards. */
  function Steps(items: seq<map<string, string>>, fs: Fields, hs: Hashers, threshold: real, k: nat): (r: (seq<Verdict>, Seen))
    requires hs.bits > 0
    requires k <= |items|
    ensures |r.0| == k && SeenWellFormed(r.1)
    decreases k
  {
    if k == 0 then ([], NoneSeen())
    else
      var p := Steps(items, fs, hs, threshold, k - 1);
      var c := Check(p.1, hs, threshold, ContentOf(items[k - 1], fs.content), IdOf(items, k - 1, fs.id, fs.objectIds));
      (p.0 + [c.0], c.1)
  }

  /** The verdicts on the whole batch. */
  function Verdicts(items: seq<map<string, string>>, fs: Fields, hs: Hashers, threshold: real): (vs: seq<Verdict>)
    requires hs.bits > 0
    ensures |vs| == |items|
  {
    Steps(items, fs, hs, threshold, |items|).0
  }

  /** The items `deduplicate_batch` returns, each with its flags. */
  function Batch(items: seq<map<string, string>>, fs: Fields, hs: Hashers, threshold: real): (r: seq<Flagged>)
    requires hs.bits > 0
    ensures |r| == |items|
  {
    var vs := Verdicts(items, fs, hs, threshold);
    seq(|items|, i requires 0 <= i < |items| => Flag(items[i], vs[i]))
  }

  /** Later items leave the verdict on an earlier one alone: item `i` is judged against the tables the items before it left. */
  lemma {:induction false} StepsPrefix(items: seq<map<string, string>>, fs: Fields, hs: Hashers, threshold: real, i: nat, k: nat)
    requires hs.bits > 0
    requires i < k <= |items|
    ensures Steps(items, fs, hs, threshold, k).0[i] ==
      Check(Steps(items, fs, hs, threshold, i).1, hs, threshold, ContentOf(items[i], fs.content), IdOf(items, i, fs.id, fs.objectIds)).0
    decreases k
  {
    var p := Steps(items, fs, hs, threshold, k - 1);
    var c := Check(p.1, hs, threshold, ContentOf(items[k - 1], fs.content), IdOf(items, k - 1, fs.id, fs.objectIds));
    assert Steps(items, fs, hs, threshold, k).0 == p.0 + [c.0];
    if i < k - 1 {
      StepsPrefix(items, fs, hs, threshold, i, k - 1);
      assert (p.0 + [c.0])[i] == p.0[i];
    }
  }

  /** Item `j` has non-empty content and was judged unique by `vs[j]`, so the tables recorded it. */
  predicate Recorded(items: seq<map<string, string>>, fs: Fields, vs: seq<Verdict>, j: nat)
    requires j < |items| && j < |vs|
  {
    !vs[j].isExact && !vs[j].isNear && ContentOf(items[j], fs.content) != ""
  }

  /** Some item before `k` that `vs` recorded has content hash `h` and id `id`. */
  ghost predicate HashFrom(items: seq<map<string, string>>, fs: Fields, hs: Hashers, vs: seq<Verdict>, k: nat, h: string, id: string)
    requires k <= |items| && k <= |vs|
  {
    exists j :: 0 <= j < k && Recorded(items, fs, vs, j) &&
                ContentHash(hs, ContentOf(items[j], fs.content)) == h && IdOf(items, j, fs.id, fs.objectIds) == id
  }

  /** Some item before `k` that `vs` recorded has SimHash `q` and id `id`. */
  ghost predicate SimFrom(items: seq<map<string, string>>, fs: Fields, hs: Hashers, vs: seq<Verdict>, k: nat, q: nat, id: string)
    requires k <= |items| && k <= |vs|
  {
    exists j :: 0 <= j < k && Recorded(items, fs, vs, j) &&
                ContentSimhash(hs, ContentOf(items[j], fs.content)) == q && IdOf(items, j, fs.id, fs.objectIds) == id
  }

  /** Every entry of `s` comes from an item before `k` that `vs` recorded. */
  ghost predicate Traced(items: seq<map<string, string>>, fs: Fields, hs: Hashers, vs: seq<Verdict>, k: nat, s: Seen)
    requires k <= |items| && k <= |vs|
  {
    (forall h :: h in s.hashes ==> HashFrom(items, fs, hs, vs, k, h, s.hashes[h])) &&
    (forall q :: q in s.simIds ==> SimFrom(items, fs, hs, vs, k, q, s.simIds[q]))
  }

  /** Every item before `k` that `vs` recorded has its content hash in `s`. */
  ghost predicate Covered(items: seq<map<string, string>>, fs: Fields, hs: Hashers, vs: seq<Verdict>, k: nat, s: Seen)
    requires k <= |items| && k <= |vs|
  {
    forall j :: 0 <= j < k && Recorded(items, fs, vs, j) ==> ContentHash(hs, ContentOf(items[j], fs.content)) in s.hashes
  }

  lemma FromGrow(items: seq<map<string, string>>, fs: Fields, hs: Hashers, vs: seq<Verdict>, v: Verdict, h: string, q: nat, id: string)
    requires |vs| < |items|
    ensures HashFrom(items, fs, hs, vs, |vs|, h, id) ==> HashFrom(items, fs, hs, vs + [v], |vs| + 1, h, id)
    ensures SimFrom(items, fs, hs, vs, |vs|, q, id) ==> SimFrom(items, fs, hs, vs + [v], |vs| + 1, q, id)
  {
    var k := |vs|;
    if HashFrom(items, fs, hs, vs, k, h, id) {
      var j :| 0 <= j < k && Recorded(items, fs, vs, j) &&
               ContentHash(hs, ContentOf(items[j], fs.content)) == h && IdOf(items, j, fs.id, fs.objectIds) == id;
      assert (vs + [v])[j] == vs[j];
      assert Recorded(items, fs, vs + [v], j);
    }
    if SimFrom(items, fs, hs, vs, k, q, id) {
      var j :| 0 <= j < k && Recorded(items, fs, vs, j) &&
               ContentSimhash(hs, ContentOf(items[j], fs.content)) == q && IdOf(items, j, fs.id, fs.objectIds) == id;
      assert (vs + [v])[j] == vs[j];
      assert Recorded(items, fs, vs + [v], j);
    }
  }

  /** An item the tables did not record keeps them traced. */
  lemma TracedSkip(items: seq<map<string, string>>, fs: Fields, hs: Hashers, vs: seq<Verdict>, v: Verdict, s: Seen)
    requires |vs| < |items| && Traced(items, fs, hs, vs, |vs|, s)
    requires !Recorded(items, fs, vs + [v], |vs|)
    ensures Traced(items, fs, hs, vs + [v], |vs| + 1, s)
  {
    forall h | h in s.hashes ensures HashFrom(items, fs, hs, vs + [v], |vs| + 1, h, s.hashes[h]) {
      FromGrow(items, fs, hs, vs, v, h, 0, s.hashes[h]);
    }
    forall q | q in s.simIds ensures SimFrom(items, fs, hs, vs + [v], |vs| + 1, q, s.simIds[q]) {
      FromGrow(items, fs, hs, vs, v, "", q, s.simIds[q]);
    }
  }

  /** An item the tables recorded keeps them traced once both tables hold it. */
  lemma TracedAdd(items: seq<map<string, string>>, fs: Fields, hs: Hashers, vs: seq<Verdict>, v: Verdict, s: Seen)
    requires |vs| < |items| && SeenWellFormed(s) && Traced(items, fs, hs, vs, |vs|, s)
    requires Recorded(items, fs, vs + [v], |vs|)
    ensures var c := ContentOf(items[|vs|], fs.content);
      Traced(items, fs, hs, vs + [v], |vs| + 1, Remember(s, ContentHash(hs, c), ContentSimhash(hs, c), IdOf(items, |vs|, fs.id, fs.objectIds)))
  {
    var k := |vs|;
    var c := ContentOf(items[k], fs.content);
    var id := IdOf(items, k, fs.id, fs.objectIds);
    var s' := Remember(s, ContentHash(hs, c), ContentSimhash(hs, c), id);
    forall h | h in s'.hashes ensures HashFrom(items, fs, hs, vs + [v], k + 1, h, s'.hashes[h]) {
      if h == ContentHash(hs, c) {
        assert 0 <= k < k + 1 && Recorded(items, fs, vs + [v], k) &&
               ContentHash(hs, ContentOf(items[k], fs.content)) == h && IdOf(items, k, fs.id, fs.objectIds) == s'.hashes[h];
      } else {
        FromGrow(items, fs, hs, vs, v, h, 0, s.hashes[h]);
      }
    }
    forall q | q in s'.simIds ensures SimFrom(items, fs, hs, vs + [v], k + 1, q, s'.simIds[q]) {
      if q == ContentSimhash(hs, c) {
        assert 0 <= k < k + 1 && Recorded(items, fs, vs + [v], k) &&
               ContentSimhash(hs, ContentOf(items[k], fs.content)) == q && IdOf(items, k, fs.id, fs.objectIds) == s'.simIds[q];
      } else {
        FromGrow(items, fs, hs, vs, v, "", q, s.simIds[q]);
      }
    }
  }

  /** Checking one more item keeps the tables traced. */
  lemma TracedStep(items: seq<map<string, string>>, fs: Fields, hs: Hashers, threshold: real, vs: seq<Verdict>, s: Seen)
    requires hs.bits > 0
    requires |vs| < |items| && SeenWellFormed(s) && Traced(items, fs, hs, vs, |vs|, s)
    ensures var r := Check(s, hs, threshold, ContentOf(items[|vs|], fs.content), IdOf(items, |vs|, fs.id, fs.objectIds));
      Traced(items, fs, hs, vs + [r.0], |vs| + 1, r.1)
  {
    var c := ContentOf(items[|vs|], fs.content);
    var id := IdOf(items, |vs|, fs.id, fs.objectIds);
    CheckVerdict(s, hs, threshold, c, id);
    var r := Check(s, hs, threshold, c, id);
    if Recorded(items, fs, vs + [r.0], |vs|) {
      TracedAdd(items, fs, hs, vs, r.0, s);
    } else {
      TracedSkip(items, fs, hs, vs, r.0, s);
    }
  }

  /** The tables after `k` items hold only what the recorded items among them put there. */
  lemma {:induction false} SeenTraced(items: seq<map<string, string>>, fs: Fields, hs: Hashers, threshold: real, k: nat)
    requires hs.bits > 0
    requires k <= |items|
    ensures Traced(items, fs, hs, Steps(items, fs, hs, threshold, k).0, k, Steps(items, fs, hs, threshold, k).1)
    decreases k
  {
    if k > 0 {
      SeenTraced(items, fs, hs, threshold, k - 1);
      var p := Steps(items, fs, hs, threshold, k - 1);
      TracedStep(items, fs, hs, threshold, p.0, p.1);
    }
  }

  /** Checking one more item keeps every recorded item's hash in the tables. */
  lemma CoveredStep(items: seq<map<string, string>>, fs: Fields, hs: Hashers, threshold: real, vs: seq<Verdict>, s: Seen)
    requires hs.bits > 0
    requires |vs| < |items| && SeenWellFormed(s) && Covered(items, fs, hs, vs, |vs|, s)
    ensures var r := Check(s, hs, threshold, ContentOf(items[|vs|], fs.content), IdOf(items, |vs|, fs.id, fs.objectIds));
      Covered(items, fs, hs, vs + [r.0], |vs| + 1, r.1)
  {
    var k := |vs|;
    var c := ContentOf(items[k], fs.content);
    var id := IdOf(items, k, fs.id, fs.objectIds);
    CheckVerdict(s, hs, threshold, c, id);
    var r := Check(s, hs, threshold, c, id);
    var vs' := vs + [r.0];
    assert s.hashes.Keys <= r.1.hashes.Keys;
    forall j | 0 <= j < k + 1 && Recorded(items, fs, vs', j) ensures ContentHash(hs, ContentOf(items[j], fs.content)) in r.1.hashes {
      if j < k {
        assert vs'[j] == vs[j];
        assert Recorded(items, fs, vs, j);
      }
    }
  }

  /** The tables after `k` items hold the hash of every recorded item among them. */
  lemma {:induction false} SeenCovered(items: seq<map<string, string>>, fs: Fields, hs: Hashers, threshold: real, k: nat)
    requires hs.bits > 0
    requires k <= |items|
    ensures Covered(items, fs, hs, Steps(items, fs, hs, threshold, k).0, k, Steps(items, fs, hs, threshold, k).1)
    decreases k
  {
    if k > 0 {
      SeenCovered(items, fs, hs, threshold, k - 1);
      var p := Steps(items, fs, hs, threshold, k - 1);
      CoveredStep(items, fs, hs, threshold, p.0, p.1);
    }
  }

  /**
   * `deduplicate_batch` returns the same items in the same order, each
   * flagged a duplicate iff it is an exact or a near duplicate, never both;
   * an item with empty content is never a duplicate.
   */
  lemma BatchItems(items: seq<map<string, string>>, fs: Fields, hs: Hashers, threshold: real)
    requires hs.bits > 0
    ensures forall i :: 0 <= i < |items| ==>
      var f := Batch(items, fs, hs, threshold)[i];
      f.item == items[i] && (f.isDuplicate <==> f.isExactDuplicate || f.isNearDuplicate) &&
      !(f.isExactDuplicate && f.isNearDuplicate) &&
      (ContentOf(items[i], fs.content) == "" ==> !f.isDuplicate)
  {
    var vs := Verdicts(items, fs, hs, threshold);
    forall i | 0 <= i < |items|
      ensures !(vs[i].isExact && vs[i].isNear)
      ensures ContentOf(items[i], fs.content) == "" ==> !vs[i].isExact && !vs[i].isNear
    {
      StepsPrefix(items, fs, hs, threshold, i, |items|);
      CheckVerdict(Steps(items, fs, hs, threshold, i).1, hs, threshold, ContentOf(items[i], fs.content), IdOf(items, i, fs.id, fs.objectIds));
    }
  }

  /** Two items recorded by a batch never share a content hash. */
  lemma RecordedHashesDistinct(items: seq<map<string, string>>, fs: Fields, hs: Hashers, threshold: real, j1: nat, j2: nat)
    requires hs.bits > 0
    requires j1 < j2 < |items|
    requires Recorded(items, fs, Verdicts(items, fs, hs, threshold), j1) && Recorded(items, fs, Verdicts(items, fs, hs, threshold), j2)
    ensures ContentHash(hs, ContentOf(items[j1], fs.content)) != ContentHash(hs, ContentOf(items[j2], fs.content))
  {
    var p := Steps(items, fs, hs, threshold, j2);
    SeenCovered(items, fs, hs, threshold, j2);
    StepsPrefix(items, fs, hs, threshold, j1, j2);
    StepsPrefix(items, fs, hs, threshold, j1, |items|);
    StepsPrefix(items, fs, hs, threshold, j2, |items|);
    assert Recorded(items, fs, p.0, j1);
    CheckVerdict(p.1, hs, threshold, ContentOf(items[j2], fs.content), IdOf(items, j2, fs.id, fs.objectIds));
  }

  /**
   * An exact duplicate points at an earlier recorded item with the same
   * content hash; by `RecordedHashesDistinct` that item is the only one.
   */
  lemma ExactOriginal(items: seq<map<string, string>>, fs: Fields, hs: Hashers, threshold: real, i: nat)
    requires hs.bits > 0
    requires i < |items| && Batch(items, fs, hs, threshold)[i].isExactDuplicate
    ensures exists j :: 0 <= j < i && Recorded(items, fs, Verdicts(items, fs, hs, threshold), j) &&
                        ContentHash(hs, ContentOf(items[j], fs.content)) == ContentHash(hs, ContentOf(items[i], fs.content)) &&
                        Batch(items, fs, hs, threshold)[i].duplicateOf == Some(IdOf(items, j, fs.id, fs.objectIds))
  {
    var vs := Verdicts(items, fs, hs, threshold);
    var p := Steps(items, fs, hs, threshold, i);
    StepsPrefix(items, fs, hs, threshold, i, |items|);
    SeenTraced(items, fs, hs, threshold, i);
    var c := ContentOf(items[i], fs.content);
    CheckVerdict(p.1, hs, threshold, c, IdOf(items, i, fs.id, fs.objectIds));
    var h := ContentHash(hs, c);
    assert HashFrom(items, fs, hs, p.0, i, h, p.1.hashes[h]);
    var j :| 0 <= j < i && Recorded(items, fs, p.0, j) &&
             ContentHash(hs, ContentOf(items[j], fs.content)) == h && IdOf(items, j, fs.id, fs.objectIds) == p.1.hashes[h];
    StepsPrefix(items, fs, hs, threshold, j, i);
    StepsPrefix(items, fs, hs, threshold, j, |items|);
    assert Recorded(items, fs, vs, j);
  }

  /** A near duplicate points at an earlier recorded item whose SimHash is similar enough. */
  lemma NearOriginal(items: seq<map<string, string>>, fs: Fields, hs: Hashers, threshold: real, i: nat)
    requires hs.bits > 0
    requires i < |items| && Batch(items, fs, hs, threshold)[i].isNearDuplicate
    ensures exists j :: 0 <= j < i && Recorded(items, fs, Verdicts(items, fs, hs, threshold), j) &&
                        Similarity(ContentSimhash(hs, ContentOf(items[i], fs.content)), ContentSimhash(hs, ContentOf(items[j], fs.content)), hs.bits) >= threshold &&
                        Batch(items, fs, hs, threshold)[i].duplicateOf == Some(IdOf(items, j, fs.id, fs.objectIds))
  {
    var vs := Verdicts(items, fs, hs, threshold);
    var p := Steps(items, fs, hs, threshold, i);
    StepsPrefix(items, fs, hs, threshold, i, |items|);
    SeenTraced(items, fs, hs, threshold, i);
    var c := ContentOf(items[i], fs.content);
    CheckVerdict(p.1, hs, threshold, c, IdOf(items, i, fs.id, fs.objectIds));
    var sh := ContentSimhash(hs, c);
    var near := FirstNear(p.1.simKeys, sh, threshold, hs.bits);
    var n :| 0 <= n < |p.1.simKeys| && p.1.simKeys[n] == near.value && Similarity(sh, p.1.simKeys[n], hs.bits) >= threshold &&
             forall m :: 0 <= m < n ==> Similarity(sh, p.1.simKeys[m], hs.bits) < threshold;
    assert near.value in p.1.simIds;
    var q := near.value;
    assert SimFrom(items, fs, hs, p.0, i, q, p.1.simIds[q]);
    var j :| 0 <= j < i && Recorded(items, fs, p.0, j) &&
             ContentSimhash(hs, ContentOf(items[j], fs.content)) == q && IdOf(items, j, fs.id, fs.objectIds) == p.1.simIds[q];
    StepsPrefix(items, fs, hs, threshold, j, i);
    StepsPrefix(items, fs, hs, threshold, j, |items|);
    assert Recorded(items, fs, vs, j);
  }

  class DeduplicationService {
    const threshold: real
    const hs: Hashers
    var seen: Seen

    ghost predicate Valid()
      reads this
    {
      hs.bits == HashBits && SeenWellFormed(seen)
    }

    /** `clean`, `md5` and `tokenHash` stand for `_clean_text` and the two MD5 digests. */
    constructor (similarityThreshold: real, clean: string -> string, md5: string -> string, tokenHash: string -> nat)
      ensures Valid() && seen == NoneSeen()
      ensures threshold == similarityThreshold && hs == Hashers(clean, md5, tokenHash, HashBits)
    {
      threshold := similarityThreshold;
      hs := Hashers(clean, md5, tokenHash, HashBits);
      seen := NoneSeen();
    }

    /** `reset`: clear both tables. */
    method Reset()
      requires Valid()
      modifies this
      ensures Valid() && seen == NoneSeen()
    {
      seen := NoneSeen();
    }

    /** `check_duplicate`: the exact lookup, then a scan of the seen SimHashes in insertion order. */
    method CheckDuplicate(content: string, itemId: string) returns (v: Verdict)
      requires Valid()
      modifies this
      ensures Valid()
      ensures (v, seen) == Check(old(seen), hs, threshold, content, itemId)
    {
      if content == "" {
        return Verdict(false, false, None);
      }
      var clean := hs.clean(content);
      var hash := hs.md5(clean);
      if hash in seen.hashes {
        return Verdict(true, false, Some(seen.hashes[hash]));
      }
      var simhash := ComputeSimhash(clean, hs.tokenHash, hs.bits);
      var keys := seen.simKeys;
      var i := 0;
      while i < |keys|
        invariant 0 <= i <= |keys|
        invariant FirstNear(keys, simhash, threshold, hs.bits) == FirstNear(keys[i..], simhash, threshold, hs.bits)
      {
        assert keys[i..][1..] == keys[i + 1..] && keys[i..][0] == keys[i];
        if Similarity(simhash, keys[i], hs.bits) >= threshold {
          assert FirstNear(keys, simhash, threshold, hs.bits) == Some(keys[i]);
          return Verdict(false, true, Some(seen.simIds[keys[i]]));
        }
        i := i + 1;
      }
      seen := Remember(seen, hash, simhash, itemId);
      v := Verdict(false, false, None);
    }

    /** One turn of the batch loop: check item `|r|` against the tables and flag it. */
    method FlagNext(items: seq<map<string, string>>, fs: Fields, r: seq<Flagged>, ghost vs: seq<Verdict>)
      returns (r': seq<Flagged>, ghost vs': seq<Verdict>)
      requires Valid() && |r| == |vs| < |items|
      requires (vs, seen) == Steps(items, fs, hs, threshold, |vs|)
      requires forall i :: 0 <= i < |r| ==> r[i] == Flag(items[i], vs[i])
      modifies this
      ensures Valid() && |r'| == |vs'| == |r| + 1
      ensures (vs', seen) == Steps(items, fs, hs, threshold, |vs'|)
      ensures forall i :: 0 <= i < |r'| ==> r'[i] == Flag(items[i], vs'[i])
    {
      var k := |r|;
      var v := CheckDuplicate(ContentOf(items[k], fs.content), IdOf(items, k, fs.id, fs.objectIds));
      assert Steps(items, fs, hs, threshold, k + 1) == (vs + [v], seen);
      vs' := vs + [v];
      r' := r + [Flag(items[k], v)];
    }

    /** `deduplicate_batch`: reset, then flag every item in order. */
    method DeduplicateBatch(items: seq<map<string, string>>, fs: Fields) returns (r: seq<Flagged>)
      requires Valid()
      modifies this
      ensures Valid()
      ensures r == Batch(items, fs, hs, threshold) && seen == Steps(items, fs, hs, threshold, |items|).1
    {
      Reset();
      r := [];
      ghost var vs: seq<Verdict> := [];
      var k := 0;
      while k < |items|
        invariant 0 <= k <= |items| && Valid()
        invariant (vs, seen) == Steps(items, fs, hs, threshold, k)
        invariant |r| == k && forall i :: 0 <= i < k ==> r[i] == Flag(items[i], vs[i])
      {
        r, vs := FlagNext(items, fs, r, vs);
        k := k + 1;
      }
      assert vs == Verdicts(items, fs, hs, threshold);
      assert forall i :: 0 <= i < |items| ==> r[i] == Batch(items, fs, hs, threshold)[i];
    }
  }

  // ------------------------------------------------------------ MinHash

  /** The `size` characters of `t` from position `i`. */
  function Window(t: string, size: nat, i: nat): (w: string)
    requires i + size <= |t|
    ensures |w| == size && forall j :: 0 <= j < size ==> w[j] == t[i + j]
  {
    t[i..i + size]
  }

  /** The distinct `size`-character windows of `t` that start before `n`. */
  function Windows(t: string, size: nat, n: nat): (r: set<string>)
    requires n + size <= |t| + 1
    ensures |r| <= n
    decreases n
  {
    if n == 0 then {}
    else
      var w := Windows(t, size, n - 1);
      var x := Window(t, size, n - 1);
      assert |w + {x}| <= |w| + 1 by {
        if x in w {
          assert w + {x} == w;
        }
      }
      w + {x}
  }

  lemma {:induction false} WindowsMembers(t: string, size: nat, n: nat, x: string)
    requires n + size <= |t| + 1
    ensures x in Windows(t, size, n) <==> exists i :: 0 <= i < n && x == Window(t, size, i)
    decreases n
  {
    if n > 0 {
      WindowsMembers(t, size, n - 1, x);
      if x == Window(t, size, n - 1) {
        assert 0 <= n - 1 < n;
      }
      if exists i :: 0 <= i < n && x == Window(t, size, i) {
        var i :| 0 <= i < n && x == Window(t, size, i);
        if i < n - 1 {
          assert 0 <= i < n - 1;
        }
      }
    }
  }

  /** `text.lower().strip()`, the text `_generate_shingles` cuts up. */
  function ShingleText(text: string): string
  {
    Text.Lower(Text.Strip(text))
  }

  /** Stripping first gives the same text as the source's lower-then-strip. */
  lemma ShingleTextOrder(text: string)
    ensures ShingleText(text) == Text.Strip(Text.Lower(text))
  {
    Text.StripLower(text);
  }

  /** The shingles of an already lowered and stripped text `t`. */
  function Shingles(t: string, size: nat): set<string>
  {
    if |t| < size then {t} else Windows(t, size, |t| - size + 1)
  }

  /**
   * A text shorter than the shingle size is its own only shingle; otherwise
   * the shingles are exactly the `size`-character windows, at most one per
   * start position. There is always at least one shingle.
   */
  lemma ShinglesProperties(t: string, size: nat, x: string)
    ensures Shingles(t, size) != {}
    ensures |t| < size ==> Shingles(t, size) == {t}
    ensures |t| >= size ==>
      |Shingles(t, size)| <= |t| - size + 1 &&
      (x in Shingles(t, size) <==> exists i :: 0 <= i <= |t| - size && x == Window(t, size, i))
  {
    if |t| >= size {
      WindowsMembers(t, size, |t| - size + 1, x);
      WindowsMembers(t, size, |t| - size + 1, Window(t, size, 0));
    }
  }

  /** The window loop of `_generate_shingles`, one window per start position. */
  method ShingleSet(t: string, size: nat) returns (shingles: set<string>)
    ensures shingles == Shingles(t, size)
  {
    if |t| < size {
      return {t};
    }
    shingles := {};
    var i := 0;
    while i < |t| - size + 1
      invariant 0 <= i <= |t| - size + 1
      invariant shingles == Windows(t, size, i)
    {
      shingles := shingles + {Window(t, size, i)};
      i := i + 1;
    }
  }

  /** `_generate_shingles`: lower, strip, then cut into windows. */
  method GenerateShingles(text: string, size: nat) returns (shingles: set<string>)
    ensures shingles == Shingles(ShingleText(text), size)
  {
    var t := ShingleText(text);
    shingles := ShingleSet(t, size);
  }

  /** `m` is the least of the hashes, under seed `i`, of the shingles in `s`. */
  ghost predicate IsMin(m: nat, s: set<string>, i: nat, seedHash: (nat, string) -> nat)
  {
    (exists x :: x in s && m == seedHash(i, x)) && forall x :: x in s ==> m <= seedHash(i, x)
  }

  /** A MinHash signature: one minimum per seed. */
  ghost predicate IsSignature(sig: seq<nat>, s: set<string>, numHashes: nat, seedHash: (nat, string) -> nat)
  {
    |sig| == numHashes && forall i :: 0 <= i < numHashes ==> IsMin(sig[i], s, i, seedHash)
  }

  /** The minimum is unique, so a set of shingles has exactly one signature. */
  lemma SignatureUnique(a: seq<nat>, b: seq<nat>, s: set<string>, numHashes: nat, seedHash: (nat, string) -> nat)
    requires IsSignature(a, s, numHashes, seedHash) && IsSignature(b, s, numHashes, seedHash)
    ensures a == b
  {
    forall i | 0 <= i < numHashes ensures a[i] == b[i] {
      var xa :| xa in s && a[i] == seedHash(i, xa);
      var xb :| xb in s && b[i] == seedHash(i, xb);
    }
  }

  /** The inner loop of `compute_signature`: the running minimum starts at infinity (`None`). */
  method MinOver(shingles: set<string>, i: nat, seedHash: (nat, string) -> nat) returns (m: nat)
    requires shingles != {}
    ensures IsMin(m, shingles, i, seedHash)
  {
    var best: Option<nat> := None;
    var rest := shingles;
    while rest != {}
      invariant rest <= shingles
      invariant best.None? <==> rest == shingles
      invariant best.Some? ==> exists x :: x in shingles && best.value == seedHash(i, x)
      invariant best.Some? ==> forall x :: x in shingles - rest ==> best.value <= seedHash(i, x)
      decreases |rest|
    {
      var x :| x in rest;
      var h := seedHash(i, x);
      if best.None? || h < best.value {
        best := Some(h);
      }
      rest := rest - {x};
    }
    m := best.value;
  }

  /** The number of positions where the two signatures agree. */
  function Matches(a: seq<nat>, b: seq<nat>): (n: nat)
    requires |a| == |b|
    ensures n <= |a|
  {
    if a == [] then 0 else Matches(a[..|a| - 1], b[..|b| - 1]) + (if a[|a| - 1] == b[|b| - 1] then 1 else 0)
  }

  lemma {:induction false} MatchesSymmetric(a: seq<nat>, b: seq<nat>)
    requires |a| == |b|
    ensures Matches(a, b) == Matches(b, a)
    decreases |a|
  {
    if a != [] {
      MatchesSymmetric(a[..|a| - 1], b[..|b| - 1]);
    }
  }

  /** Every position agrees exactly when the signatures are equal. */
  lemma {:induction false} MatchesAll(a: seq<nat>, b: seq<nat>)
    requires |a| == |b|
    ensures Matches(a, b) == |a| <==> a == b
    decreases |a|
  {
    if a != [] {
      var n := |a| - 1;
      MatchesAll(a[..n], b[..n]);
      if a == b {
        assert a[..n] == b[..n];
      }
      if Matches(a, b) == |a| {
        assert a[..n] == b[..n] && a[n] == b[n];
        assert a == a[..n] + [a[n]] && b == b[..n] + [b[n]];
      }
    }
  }

  /**
   * `estimate_similarity`: signatures of different lengths score 0, others
   * the fraction of agreeing positions; two empty signatures divide by zero,
   * which is `None`.
   */
  function EstimateSimilarity(a: seq<nat>, b: seq<nat>): (r: Option<real>)
    ensures r.None? <==> a == [] && b == []
    ensures |a| != |b| ==> r == Some(0.0)
    ensures r.Some? ==> 0.0 <= r.value <= 1.0
  {
    if |a| != |b| then Some(0.0)
    else if |a| == 0 then None
    else Some((Matches(a, b) as real) / (|a| as real))
  }

  /** The estimate is symmetric, and it is 1 exactly for equal non-empty signatures. */
  lemma EstimateProperties(a: seq<nat>, b: seq<nat>)
    ensures EstimateSimilarity(a, b) == EstimateSimilarity(b, a)
    ensures a != [] ==> (EstimateSimilarity(a, b) == Some(1.0) <==> a == b)
  {
    if |a| == |b| {
      MatchesSymmetric(a, b);
      MatchesAll(a, b);
      if a != [] {
        var m := Matches(a, b) as real;
        var n := |a| as real;
        if m / n == 1.0 {
          assert m == (m / n) * n;
        }
      }
    }
  }

  /** The score of a `(doc_id, similarity)` pair, for sorting. */
  function Score(e: (string, real)): real { e.1 }

  /** The loop of `find_similar` over the stored documents in insertion order; `None` once an estimate divides by zero. */
  function Scan(docs: seq<string>, sigs: map<string, seq<nat>>, sig: seq<nat>, threshold: real): (r: Option<seq<(string, real)>>)
    requires forall d :: d in docs ==> d in sigs
    decreases |docs|
  {
    if docs == [] then Some([])
    else
      var d := docs[|docs| - 1];
      match Scan(docs[..|docs| - 1], sigs, sig, threshold)
      case None => None
      case Some(acc) =>
        match EstimateSimilarity(sig, sigs[d])
        case None => None
        case Some(e) => Some(if e >= threshold then acc + [(d, e)] else acc)
  }

  /**
   * The scan fails exactly when an estimate divides by zero; otherwise it
   * keeps exactly the documents whose estimate reaches the threshold, each
   * once, with that estimate.
   */
  lemma {:induction false} ScanMembers(docs: seq<string>, sigs: map<string, seq<nat>>, sig: seq<nat>, threshold: real, d: string, e: real)
    requires forall x :: x in docs ==> x in sigs
    requires Distinct(docs)
    ensures Scan(docs, sigs, sig, threshold).None? <==> exists x :: x in docs && EstimateSimilarity(sig, sigs[x]).None?
    ensures Scan(docs, sigs, sig, threshold).Some? ==>
      ((d, e) in Scan(docs, sigs, sig, threshold).value <==> d in docs && EstimateSimilarity(sig, sigs[d]) == Some(e) && e >= threshold)
    decreases |docs|
  {
    if docs != [] {
      var init := docs[..|docs| - 1];
      var last := docs[|docs| - 1];
      assert docs == init + [last];
      assert Distinct(init) by {
        forall i, j | 0 <= i < j < |init| ensures init[i] != init[j] {
          assert init[i] == docs[i] && init[j] == docs[j];
        }
      }
      assert last !in init by {
        forall i | 0 <= i < |init| ensures init[i] != last {
          assert init[i] == docs[i];
        }
      }
      ScanMembers(init, sigs, sig, threshold, d, e);
      if Scan(init, sigs, sig, threshold).Some? {
        var acc := Scan(init, sigs, sig, threshold).value;
        ScanMembers(init, sigs, sig, threshold, last, e);
        if d == last {
          assert (d, e) !in acc;
        }
      }
    }
  }

  /** A scan that fails on a prefix fails on the whole list. */
  lemma {:induction false} ScanPrefixNone(docs: seq<string>, sigs: map<string, seq<nat>>, sig: seq<nat>, threshold: real, k: nat)
    requires forall x :: x in docs ==> x in sigs
    requires k <= |docs| && Scan(docs[..k], sigs, sig, threshold).None?
    ensures Scan(docs, sigs, sig, threshold).None?
    decreases |docs| - k
  {
    if k < |docs| {
      assert docs[..k + 1][..k] == docs[..k];
      ScanPrefixNone(docs, sigs, sig, threshold, k + 1);
    } else {
      assert docs[..k] == docs;
    }
  }

  /** `find_similar`'s result: the scan, sorted by similarity, highest first and stable among equals. */
  function Ranked(scan: Option<seq<(string, real)>>): (r: Option<seq<(string, real)>>)
    ensures r.None? <==> scan.None?
    ensures r.Some? ==> multiset(r.value) == multiset(scan.value) && Sorting.SortedDesc(r.value, Score)
  {
    match scan
    case None => None
    case Some(c) => Some(Sorting.SortDesc(c, Score))
  }

  lemma DistinctSnoc(s: seq<string>, x: string)
    requires Distinct(s) && x !in s
    ensures Distinct(s + [x]) && forall y :: y in s + [x] <==> y in s || y == x
  {
    var t := s + [x];
    forall i, j | 0 <= i < j < |t| ensures t[i] != t[j] {
      assert t[i] == s[i];
      if j < |s| {
        assert t[j] == s[j];
      }
    }
  }

  class MinHashService {
    const numHashes: nat
    const shingleSize: nat
    /** `int(md5(f"{i}:{shingle}"), 16)`. */
    const seedHash: (nat, string) -> nat
    /** The keys of `_signatures`, in insertion order. */
    var docOrder: seq<string>
    var signatures: map<string, seq<nat>>

    ghost predicate Valid()
      reads this
    {
      Distinct(docOrder) && (forall d :: d in signatures <==> d in docOrder) &&
      forall d :: d in signatures ==> |signatures[d]| == numHashes
    }

    constructor (hashes: nat, size: nat, hash: (nat, string) -> nat)
      ensures Valid() && docOrder == [] && signatures == map[]
      ensures numHashes == hashes && shingleSize == size && seedHash == hash
    {
      numHashes := hashes;
      shingleSize := size;
      seedHash := hash;
      docOrder := [];
      signatures := map[];
    }

    /**
     * `compute_signature`: one minimum hash per seed over the shingles. The
     * shingle set is never empty, so the all-zero signature for no shingles
     * is never produced.
     */
    method ComputeSignature(text: string) returns (sig: seq<nat>)
      ensures IsSignature(sig, Shingles(ShingleText(text), shingleSize), numHashes, seedHash)
    {
      var t := ShingleText(text);
      sig := SignatureOf(t);
    }

    /** The seed loop of `compute_signature`, over the lowered and stripped text. */
    method SignatureOf(t: string) returns (sig: seq<nat>)
      ensures IsSignature(sig, Shingles(t, shingleSize), numHashes, seedHash)
    {
      var shingles := ShingleSet(t, shingleSize);
      ShinglesProperties(t, shingleSize, "");
      sig := [];
      var i := 0;
      while i < numHashes
        invariant 0 <= i <= numHashes && |sig| == i
        invariant forall j :: 0 <= j < i ==> IsMin(sig[j], shingles, j, seedHash)
      {
        var m := MinOver(shingles, i, seedHash);
        sig := sig + [m];
        i := i + 1;
      }
    }

    /** `add_document`: store (or overwrite) the document's signature; a new id goes last. */
    method AddDocument(docId: string, text: string)
      requires Valid()
      modifies this
      ensures Valid()
      ensures docOrder == if docId in old(docOrder) then old(docOrder) else old(docOrder) + [docId]
      ensures docId in signatures && signatures == old(signatures)[docId := signatures[docId]]
      ensures IsSignature(signatures[docId], Shingles(ShingleText(text), shingleSize), numHashes, seedHash)
    {
      var sig := ComputeSignature(text);
      Store(docId, sig);
    }

    /** `self._signatures[doc_id] = sig`. */
    method Store(docId: string, sig: seq<nat>)
      requires Valid() && |sig| == numHashes
      modifies this
      ensures Valid()
      ensures docOrder == if docId in old(docOrder) then old(docOrder) else old(docOrder) + [docId]
      ensures signatures == old(signatures)[docId := sig]
    {
      if docId !in docOrder {
        DistinctSnoc(docOrder, docId);
        docOrder := docOrder + [docId];
      }
      signatures := signatures[docId := sig];
    }

    /**
     * `find_similar`: the stored documents whose estimated similarity to the
     * text reaches the threshold, highest first; `None` where the estimate
     * divides by zero.
     */
    method FindSimilar(text: string, threshold: real) returns (r: Option<seq<(string, real)>>)
      requires Valid()
      ensures forall sig :: IsSignature(sig, Shingles(ShingleText(text), shingleSize), numHashes, seedHash) ==>
        r == Ranked(Scan(docOrder, signatures, sig, threshold))
    {
      var sig := ComputeSignature(text);
      r := RankAgainst(sig, threshold);
      forall other | IsSignature(other, Shingles(ShingleText(text), shingleSize), numHashes, seedHash) ensures other == sig {
        SignatureUnique(other, sig, Shingles(ShingleText(text), shingleSize), numHashes, seedHash);
      }
    }

    /** The scan of `find_similar` over the stored documents, given the query's signature. */
    method RankAgainst(sig: seq<nat>, threshold: real) returns (r: Option<seq<(string, real)>>)
      requires Valid()
      ensures r == Ranked(Scan(docOrder, signatures, sig, threshold))
    {
      var similar: seq<(string, real)> := [];
      var k := 0;
      while k < |docOrder|
        invariant 0 <= k <= |docOrder|
        invariant Scan(docOrder[..k], signatures, sig, threshold) == Some(similar)
      {
        var d := docOrder[k];
        assert docOrder[..k + 1][..k] == docOrder[..k] && docOrder[..k + 1][k] == d;
        var e := EstimateSimilarity(sig, signatures[d]);
        if e.None? {
          ScanPrefixNone(docOrder, signatures, sig, threshold, k + 1);
          return None;
        }
        if e.value >= threshold {
          similar := similar + [(d, e.value)];
        }
        k := k + 1;
      }
      assert docOrder[..k] == docOrder;
      r := Some(Sorting.SortDesc(similar, Score));
    }
  }
}
