/**
 * The few Python string operations the backend relies on, over `seq<char>`:
 * ASCII `lower()`, whitespace `strip()` and `split()`, `startswith`,
 * `endswith`, the `in` substring test and `str.join`.
 */
module Text {
  /**
   * The characters Python's `str.isspace()` accepts, which `str.split()` and
   * `str.strip()` drop: the ASCII controls 9 to 13 and 28 to 31, the space,
   * and the Unicode line, paragraph and space separators.
   */
  predicate IsSpace(c: char)
  {
    var n := c as int;
    (9 <= n <= 13) || (28 <= n <= 32) || n == 0x85 || n == 0xA0 || n == 0x1680 ||
    (0x2000 <= n <= 0x200A) || n == 0x2028 || n == 0x2029 || n == 0x202F || n == 0x205F || n == 0x3000
  }

  function LowerChar(c: char): (r: char)
    ensures 'A' <= c <= 'Z' ==> 'a' <= r <= 'z' && r as int == c as int + 32
    ensures !('A' <= c <= 'Z') ==> r == c
  {
    if 'A' <= c <= 'Z' then (c as int + 32) as char else c
  }

  /** `s.lower()`, restricted to ASCII letters. */
  function Lower(s: string): (r: string)
    ensures |r| == |s|
    ensures forall i :: 0 <= i < |s| ==> r[i] == LowerChar(s[i])
  {
    if s == [] then [] else [LowerChar(s[0])] + Lower(s[1..])
  }

  function UpperChar(c: char): (r: char)
    ensures 'a' <= c <= 'z' ==> 'A' <= r <= 'Z' && r as int == c as int - 32
    ensures !('a' <= c <= 'z') ==> r == c
  {
    if 'a' <= c <= 'z' then (c as int - 32) as char else c
  }

  /** `s.upper()`, restricted to ASCII letters. */
  function Upper(s: string): (r: string)
    ensures |r| == |s|
    ensures forall i :: 0 <= i < |s| ==> r[i] == UpperChar(s[i])
  {
    if s == [] then [] else [UpperChar(s[0])] + Upper(s[1..])
  }

  /** `str(n)` for a natural number. */
  function NatToString(n: nat): (r: string)
    ensures |r| >= 1
    decreases n
  {
    if n < 10 then ["0123456789"[n]] else NatToString(n / 10) + ["0123456789"[n % 10]]
  }

  predicate StartsWith(s: string, prefix: string)
  {
    |prefix| <= |s| && s[..|prefix|] == prefix
  }

  predicate EndsWith(s: string, suffix: string)
  {
    |suffix| <= |s| && s[|s| - |suffix|..] == suffix
  }

  /** Python's `sub in s`. */
  predicate Contains(s: string, sub: string)
    decreases |s|
  {
    StartsWith(s, sub) || (|s| > 0 && Contains(s[1..], sub))
  }

  lemma {:induction false} ContainsAt(s: string, sub: string, i: nat)
    requires i + |sub| <= |s| && s[i..i + |sub|] == sub
    ensures Contains(s, sub)
    decreases i
  {
    if i > 0 {
      assert s[1..][i - 1..i - 1 + |sub|] == s[i..i + |sub|];
      ContainsAt(s[1..], sub, i - 1);
    }
  }

  /** A substring found by `in` sits at some position of the string. */
  lemma {:induction false} ContainsIndex(s: string, sub: string) returns (i: nat)
    requires Contains(s, sub)
    ensures i + |sub| <= |s| && s[i..i + |sub|] == sub
    decreases |s|
  {
    if StartsWith(s, sub) {
      i := 0;
    } else {
      var k := ContainsIndex(s[1..], sub);
      assert s[1..][k..k + |sub|] == s[k + 1..k + 1 + |sub|];
      i := k + 1;
    }
  }

  function TrimLeft(s: string): (r: string)
    ensures |r| <= |s| && r == s[|s| - |r|..]
    ensures r != [] ==> !IsSpace(r[0])
    ensures forall i :: 0 <= i < |s| - |r| ==> IsSpace(s[i])
  {
    if s != [] && IsSpace(s[0]) then TrimLeft(s[1..]) else s
  }

  function TrimRight(s: string): (r: string)
    ensures |r| <= |s| && r == s[..|r|]
    ensures r != [] ==> !IsSpace(r[|r| - 1])
    ensures forall i :: |r| <= i < |s| ==> IsSpace(s[i])
  {
    if s != [] && IsSpace(s[|s| - 1]) then TrimRight(s[..|s| - 1]) else s
  }

  /** `s.strip()`: empty exactly when `s` is all whitespace. */
  function Strip(s: string): (r: string)
    ensures r == [] <==> forall i :: 0 <= i < |s| ==> IsSpace(s[i])
    ensures r != [] ==> !IsSpace(r[0]) && !IsSpace(r[|r| - 1])
  {
    var t := TrimLeft(s);
    var r := TrimRight(t);
    assert r != [] ==> !IsSpace(s[|s| - |t|]) by {
      if r != [] { assert t[0] == s[|s| - |t|]; assert r[0] == t[0]; }
    }
    r
  }

  /** The leading run of non-whitespace characters. */
  function TakeWord(s: string): (w: string)
    ensures |w| <= |s| && w == s[..|w|]
    ensures s != [] && !IsSpace(s[0]) ==> |w| >= 1
    ensures forall i :: 0 <= i < |w| ==> !IsSpace(w[i])
    ensures |w| < |s| ==> IsSpace(s[|w|])
  {
    if s == [] || IsSpace(s[0]) then [] else [s[0]] + TakeWord(s[1..])
  }

  /** A non-empty run of non-whitespace characters. */
  predicate IsWord(w: string)
  {
    w != [] && forall i :: 0 <= i < |w| ==> !IsSpace(w[i])
  }

  /** `s.split()`: the maximal runs of non-whitespace characters, in order. */
  function Split(s: string): (ws: seq<string>)
    ensures forall k :: 0 <= k < |ws| ==> IsWord(ws[k])
    decreases |s|
  {
    if s == [] then []
    else if IsSpace(s[0]) then Split(s[1..])
    else
      var w := TakeWord(s);
      var rest := Split(s[|w|..]);
      assert IsWord(w);
      [w] + rest
  }

  /** `sep.join(parts)`. */
  function Join(parts: seq<string>, sep: string): (r: string)
    ensures |parts| == 1 ==> r == parts[0]
    ensures parts == [] ==> r == []
  {
    if parts == [] then []
    else if |parts| == 1 then parts[0]
    else Join(parts[..|parts| - 1], sep) + sep + parts[|parts| - 1]
  }

  /** `s.split(c)` for a single-character separator: always one more piece than separators. */
  function SplitOn(s: string, c: char): (ps: seq<string>)
    ensures |ps| >= 1
    ensures forall k, i :: 0 <= k < |ps| && 0 <= i < |ps[k]| ==> ps[k][i] != c
  {
    if s == [] then [[]]
    else if s[|s| - 1] == c then SplitOn(s[..|s| - 1], c) + [[]]
    else
      var p := SplitOn(s[..|s| - 1], c);
      p[..|p| - 1] + [p[|p| - 1] + [s[|s| - 1]]]
  }

  /** Appending a part extends the join by the separator and that part. */
  lemma JoinSnoc(parts: seq<string>, sep: string, x: string)
    requires parts != []
    ensures Join(parts + [x], sep) == Join(parts, sep) + sep + x
  {
    assert (parts + [x])[..|parts|] == parts;
  }

  /** Extending the last part extends the join by the same characters. */
  lemma JoinExtendLast(parts: seq<string>, sep: string, ch: char)
    requires parts != []
    ensures Join(parts[..|parts| - 1] + [parts[|parts| - 1] + [ch]], sep) == Join(parts, sep) + [ch]
  {
    var n := |parts|;
    if n == 1 {
      assert parts[..0] + [parts[0] + [ch]] == [parts[0] + [ch]];
    } else {
      var init := parts[..n - 1];
      JoinSnoc(init, sep, parts[n - 1] + [ch]);
      assert init + [parts[n - 1]] == parts;
      JoinSnoc(init, sep, parts[n - 1]);
    }
  }

  /** Joining the pieces of `s.split(c)` with `c` gives `s` back. */
  lemma {:induction false} JoinSplitOn(s: string, c: char)
    ensures Join(SplitOn(s, c), [c]) == s
    decreases |s|
  {
    if s != [] {
      var init, last := s[..|s| - 1], s[|s| - 1];
      assert s == init + [last];
      var p := SplitOn(init, c);
      JoinSplitOn(init, c);
      if last == c {
        assert SplitOn(s, c) == p + [[]];
        JoinSnoc(p, [c], []);
      } else {
        assert SplitOn(s, c) == p[..|p| - 1] + [p[|p| - 1] + [last]];
        JoinExtendLast(p, [c], last);
      }
    }
  }

  /** A string without the separator splits into itself alone. */
  lemma {:induction false} SplitOnWithout(s: string, c: char)
    requires forall i :: 0 <= i < |s| ==> s[i] != c
    ensures SplitOn(s, c) == [s]
    decreases |s|
  {
    if s != [] {
      SplitOnWithout(s[..|s| - 1], c);
      assert s == s[..|s| - 1] + [s[|s| - 1]];
    }
  }

  lemma SpaceLower(c: char)
    ensures IsSpace(LowerChar(c)) == IsSpace(c)
  {
  }

  lemma {:induction false} TrimLeftLower(s: string)
    ensures TrimLeft(Lower(s)) == Lower(TrimLeft(s))
    decreases |s|
  {
    if s != [] {
      SpaceLower(s[0]);
      if IsSpace(s[0]) {
        assert Lower(s)[1..] == Lower(s[1..]);
        TrimLeftLower(s[1..]);
      }
    }
  }

  lemma {:induction false} LowerInit(s: string)
    requires s != []
    ensures Lower(s)[..|s| - 1] == Lower(s[..|s| - 1])
  {
  }

  lemma {:induction false} TrimRightLower(s: string)
    ensures TrimRight(Lower(s)) == Lower(TrimRight(s))
    decreases |s|
  {
    if s != [] {
      SpaceLower(s[|s| - 1]);
      if IsSpace(s[|s| - 1]) {
        LowerInit(s);
        TrimRightLower(s[..|s| - 1]);
      }
    }
  }

  /** Lower-casing and stripping commute, since no ASCII letter is whitespace. */
  lemma StripLower(s: string)
    ensures Strip(Lower(s)) == Lower(Strip(s))
  {
    TrimLeftLower(s);
    TrimRightLower(TrimLeft(s));
  }

  /** A substring of a string is a substring of any extension of it. */
  lemma ContainsExtend(s: string, t: string, sub: string)
    requires Contains(s, sub)
    ensures Contains(s + t, sub)
  {
    var i := ContainsIndex(s, sub);
    assert (s + t)[i..i + |sub|] == s[i..i + |sub|];
    ContainsAt(s + t, sub, i);
  }

  /** A join starts with its first part. */
  lemma {:induction false} JoinStartsWith(parts: seq<string>, sep: string)
    requires parts != []
    ensures StartsWith(Join(parts, sep), parts[0])
    decreases |parts|
  {
    if |parts| > 1 {
      var init := parts[..|parts| - 1];
      JoinStartsWith(init, sep);
      var j := Join(init, sep);
      assert (j + sep + parts[|parts| - 1])[..|parts[0]|] == j[..|parts[0]|];
    }
  }

  /** Every part of a join occurs in it. */
  lemma {:induction false} JoinContains(parts: seq<string>, sep: string, k: nat)
    requires k < |parts|
    ensures Contains(Join(parts, sep), parts[k])
    decreases |parts|
  {
    if |parts| == 1 {
      ContainsAt(parts[0], parts[0], 0);
    } else {
      var init := parts[..|parts| - 1];
      var last := parts[|parts| - 1];
      var j := Join(init, sep);
      if k == |parts| - 1 {
        var r := j + sep + last;
        assert r[|j| + |sep|..|j| + |sep| + |last|] == last;
        ContainsAt(r, last, |j| + |sep|);
      } else {
        JoinContains(init, sep, k);
        ContainsExtend(j, sep + last, parts[k]);
        assert j + sep + last == j + (sep + last);
      }
    }
  }
}
