/** Python slicing with non-negative bounds, and the page arithmetic the routes share. */
module Paging {
  function Min(a: int, b: int): int { if a <= b then a else b }

  /** `s[start:end]` for non-negative `start` and `end`. */
  function Slice<T>(s: seq<T>, start: nat, end: nat): (r: seq<T>)
    ensures |r| == (if start >= |s| || end <= start then 0 else Min(end, |s|) - start)
    ensures forall i :: 0 <= i < |r| ==> r[i] == s[start + i]
  {
    if start >= |s| || end <= start then [] else s[start..Min(end, |s|)]
  }

  /** `(total + limit - 1) // limit`: the least page count that holds `total` items. */
  function TotalPages(total: nat, limit: nat): (p: nat)
    requires limit >= 1
    ensures p * limit >= total
    ensures total == 0 ==> p == 0
    ensures p > 0 ==> (p - 1) * limit < total
  {
    var p := (total + limit - 1) / limit;
    assert p * limit <= total + limit - 1 < (p + 1) * limit;
    p
  }

  /** `(page - 1) * limit`: the index of the first item of page `page`. */
  function Offset(page: nat, limit: nat): (o: nat)
    requires page >= 1
    ensures o + limit == page * limit
  {
    (page - 1) * limit
  }

  /** Page `page` (counted from 1) of `limit` items: `s[(page-1)*limit : page*limit]`. */
  function Page<T>(s: seq<T>, page: nat, limit: nat): seq<T>
    requires page >= 1
  {
    Slice(s, Offset(page, limit), page * limit)
  }

  lemma MulMono(a: nat, b: nat, c: nat)
    requires a <= b
    ensures a * c <= b * c
  {
    assert b * c == a * c + (b - a) * c;
  }

  /** Every item lies on exactly one page, at the position its index gives. */
  lemma PageHolds<T>(s: seq<T>, limit: nat, i: nat)
    requires limit >= 1 && i < |s|
    ensures var p := i / limit + 1;
      p <= TotalPages(|s|, limit) && i % limit < |Page(s, p, limit)| && Page(s, p, limit)[i % limit] == s[i]
  {
    var d := i / limit;
    var q := i % limit;
    var p := d + 1;
    assert i == d * limit + q;
    var start := Offset(p, limit);
    assert start == d * limit;
    assert start <= i < start + limit;
    var total := TotalPages(|s|, limit);
    if total < p {
      MulMono(total, d, limit);
      assert false;
    }
  }
}
