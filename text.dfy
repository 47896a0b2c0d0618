/** String helpers with the meaning of the Python built-ins the scripts use:
    `str.strip`, `str.lower`, `str.startswith`, `str.endswith`,
    `in` on strings, `str.partition` and `str.split` with a one-character
    separator. Strings are sequences of Unicode scalar values. */
module Text {

  /** Python's `str.isspace`, the set `str.strip()` removes. */
  predicate IsSpace(c: char)
  {
    || c == ' '
    || ('\t' <= c <= '\r')
    || ('\U{1c}' <= c <= '\U{1f}')
    || c == '\U{85}' || c == '\U{a0}' || c == '\U{1680}'
    || ('\U{2000}' <= c <= '\U{200a}')
    || c == '\U{2028}' || c == '\U{2029}' || c == '\U{202f}' || c == '\U{205f}' || c == '\U{3000}'
  }

  /** Python `s.lstrip()`: the text after the leading white space. */
  function StripLeft(s: string): (r: string)
    ensures |r| <= |s| && r == s[|s| - |r|..]
    ensures r == [] || !IsSpace(r[0])
    ensures forall j :: 0 <= j < |s| - |r| ==> IsSpace(s[j])
    decreases |s|
  {
    if |s| > 0 && IsSpace(s[0]) then StripLeft(s[1..]) else s
  }

  /** Python `s.rstrip()`: the text before the trailing white space. */
  function StripRight(s: string): (r: string)
    ensures |r| <= |s| && r == s[..|r|]
    ensures r == [] || !IsSpace(r[|r| - 1])
    ensures forall j :: |r| <= j < |s| ==> IsSpace(s[j])
    decreases |s|
  {
    if |s| > 0 && IsSpace(s[|s| - 1]) then StripRight(s[..|s| - 1]) else s
  }

  /** `r` is the slice of `s` from `a` on, and everything of `s` before and after
      that slice is white space. */
  ghost predicate SpaceAround(s: string, r: string, a: int)
  {
    && 0 <= a <= |s| - |r| && r == s[a..a + |r|]
    && (forall i :: 0 <= i < a ==> IsSpace(s[i]))
    && (forall i :: a + |r| <= i < |s| ==> IsSpace(s[i]))
  }

  /** Python `s.strip()`; `StripSlice` states that it is the slice left once the
      white space at both ends is removed. */
  function Strip(s: string): (r: string)
    ensures |r| <= |s|
    ensures r == [] || (!IsSpace(r[0]) && !IsSpace(r[|r| - 1]))
  {
    StripRight(StripLeft(s))
  }

  /** `strip()` removes white space at the two ends and nothing else. */
  lemma StripSlice(s: string)
    ensures exists a :: SpaceAround(s, Strip(s), a)
  {
    var l := StripLeft(s);
    var r := StripRight(l);
    var a := |s| - |l|;
    assert r == Strip(s);
    assert r == s[a..a + |r|];
    assert forall i :: 0 <= i < a ==> IsSpace(s[i]);
    forall i | a + |r| <= i < |s|
      ensures IsSpace(s[i])
    {
      assert s[i] == l[i - a];
    }
    assert SpaceAround(s, r, a);
  }

  /** When index `a` holds the first character that is not white space (or `a` is
      the end), `strip()` starts with that character (or is empty). */
  lemma StripLead(s: string, a: nat)
    requires a <= |s| && forall j :: 0 <= j < a ==> IsSpace(s[j])
    requires a < |s| ==> !IsSpace(s[a])
    ensures a == |s| ==> Strip(s) == ""
    ensures a < |s| ==> Strip(s) != "" && Strip(s)[0] == s[a]
  {
    var l := StripLeft(s);
    assert |s| - |l| < |s| ==> s[|s| - |l|] == l[0];
    if a < |s| {
      assert l[0] == s[a];
      assert !IsSpace(l[0]);
      var r := StripRight(l);
      assert r[0] == l[0];
    }
  }

  /** A string without surrounding white space is its own `strip()`. */
  lemma StripTrimmed(s: string)
    requires s == [] || (!IsSpace(s[0]) && !IsSpace(s[|s| - 1]))
    ensures Strip(s) == s
  {
  }

  /** Stripping only removes characters: a character absent from `s` is absent from `Strip(s)`. */
  lemma StripKeepsAbsent(s: string, c: char)
    requires c !in s
    ensures c !in Strip(s)
  {
    var l := StripLeft(s);
    forall j | 0 <= j < |l|
      ensures l[j] != c
    {
      assert l[j] == s[|s| - |l| + j];
    }
    var r := StripRight(l);
    forall j | 0 <= j < |r|
      ensures r[j] != c
    {
      assert r[j] == l[j];
    }
    assert Strip(s) == r;
  }

  /** `strip()` is idempotent. */
  lemma StripIdempotent(s: string)
    ensures Strip(Strip(s)) == Strip(s)
  {
    StripTrimmed(Strip(s));
  }

  /** Python's `str.lower()` on ASCII letters; other characters are kept. */
  function LowerChar(c: char): (r: char)
    ensures 'A' <= c <= 'Z' ==> r as int == c as int + 32
    ensures !('A' <= c <= 'Z') ==> r == c
  {
    if 'A' <= c <= 'Z' then (c as int + 32) as char else c
  }

  function Lower(s: string): (r: string)
    ensures |r| == |s|
    ensures forall i :: 0 <= i < |s| ==> r[i] == LowerChar(s[i])
  {
    seq(|s|, i requires 0 <= i < |s| => LowerChar(s[i]))
  }

  lemma LowerAppend(a: string, b: string)
    ensures Lower(a + b) == Lower(a) + Lower(b)
  {
    assert forall i :: 0 <= i < |a + b| ==> Lower(a + b)[i] == (Lower(a) + Lower(b))[i];
  }

  /** Lower-casing twice is lower-casing once. */
  lemma LowerIdempotent(s: string)
    ensures Lower(Lower(s)) == Lower(s)
  {
    assert forall i :: 0 <= i < |s| ==> Lower(Lower(s))[i] == Lower(s)[i];
  }

  predicate StartsWith(s: string, p: string)
  {
    |p| <= |s| && s[..|p|] == p
  }

  predicate EndsWith(s: string, p: string)
  {
    |p| <= |s| && s[|s| - |p|..] == p
  }

  /** Python `t in s` for strings: `t` occurs in `s` as a contiguous piece. */
  predicate Contains(s: string, t: string)
  {
    exists i | 0 <= i <= |s| - |t| :: OccursAt(s, t, i)
  }

  /** `t` occurs in `s` starting at index `i`. */
  predicate OccursAt(s: string, t: string, i: int)
  {
    0 <= i <= |s| - |t| && s[i..i + |t|] == t
  }

  /** Index of the first `c` in `s`, or `|s|` when there is none. */
  function Find(s: string, c: char): (k: nat)
    ensures k <= |s|
    ensures k < |s| ==> s[k] == c
    ensures forall j :: 0 <= j < k ==> s[j] != c
    ensures k == |s| <==> c !in s
    decreases |s|
  {
    if |s| == 0 then 0
    else if s[0] == c then 0
    else 1 + Find(s[1..], c)
  }

  /** Python `s.partition(c)` when `c` occurs: the text before and after its first occurrence. */
  function Before(s: string, c: char): (r: string)
    ensures c !in r && |r| <= |s| && r == s[..|r|]
  {
    s[..Find(s, c)]
  }

  function After(s: string, c: char): (r: string)
    requires c in s
    ensures s == Before(s, c) + [c] + r
  {
    s[Find(s, c) + 1..]
  }

  /** Joins `parts` with the separator `c` between consecutive parts. */
  function JoinWith(parts: seq<string>, c: char): string
  {
    if |parts| == 0 then ""
    else if |parts| == 1 then parts[0]
    else parts[0] + [c] + JoinWith(parts[1..], c)
  }

  /** Python `s.split(c)` for a one-character separator. */
  function SplitOn(s: string, c: char): (r: seq<string>)
    ensures |r| >= 1
    ensures forall i :: 0 <= i < |r| ==> c !in r[i]
    ensures JoinWith(r, c) == s
    decreases |s|
  {
    var k := Find(s, c);
    if k == |s| then [s]
    else
      var rest := SplitOn(s[k + 1..], c);
      assert s == s[..k] + [c] + s[k + 1..];
      [s[..k]] + rest
  }

  /** `split` and `join` are inverse: splitting a join of separator-free parts gives the parts back. */
  lemma {:induction false} SplitJoin(parts: seq<string>, c: char)
    requires |parts| >= 1
    requires forall i :: 0 <= i < |parts| ==> c !in parts[i]
    ensures SplitOn(JoinWith(parts, c), c) == parts
    decreases |parts|
  {
    if |parts| > 1 {
      var s := JoinWith(parts, c);
      JoinHead(parts, c);
      SplitJoin(parts[1..], c);
      SplitOnAt(s, c);
      assert parts == [parts[0]] + parts[1..];
    } else {
      assert JoinWith(parts, c) == parts[0];
      assert Find(parts[0], c) == |parts[0]|;
    }
  }

  /** A join of two or more separator-free parts has its first separator right after the first part. */
  lemma JoinHead(parts: seq<string>, c: char)
    requires |parts| > 1 && c !in parts[0]
    ensures var s, k := JoinWith(parts, c), |parts[0]|;
      k < |s| && Find(s, c) == k && s[..k] == parts[0] && s[k + 1..] == JoinWith(parts[1..], c)
  {
    var s, k := JoinWith(parts, c), |parts[0]|;
    assert s == parts[0] + [c] + JoinWith(parts[1..], c);
    assert s[k] == c;
    assert forall j :: 0 <= j < k ==> s[j] == parts[0][j];
    FindFirst(s, c, k);
    assert s[..k] == parts[0];
    assert s[k + 1..] == JoinWith(parts[1..], c);
  }

  /** `split` cuts at the first separator and goes on after it. */
  lemma SplitOnAt(s: string, c: char)
    requires Find(s, c) < |s|
    ensures SplitOn(s, c) == [s[..Find(s, c)]] + SplitOn(s[Find(s, c) + 1..], c)
  {
  }

  lemma FindFirst(s: string, c: char, k: nat)
    requires k < |s| && s[k] == c
    requires forall j :: 0 <= j < k ==> s[j] != c
    ensures Find(s, c) == k
  {
  }

  /** A text ending in its only separator splits into the text before it and `""`. */
  lemma SplitAtLast(key: string, c: char)
    requires c !in key
    ensures c in key + [c]
    ensures Before(key + [c], c) == key && After(key + [c], c) == ""
  {
    var t := key + [c];
    assert t[|key|] == c;
    assert forall j :: 0 <= j < |key| ==> t[j] == key[j];
    FindFirst(t, c, |key|);
    assert t[..|key|] == key;
  }

  /** Concatenation of a sequence of strings. */
  function Concat(parts: seq<string>): string
  {
    if |parts| == 0 then "" else parts[0] + Concat(parts[1..])
  }
}
