/** Scalar coercion of the fallback YAML parser (`_parse_scalar`) and its
    double-quote unescaper (`_unescape_double_quoted`). */
module YamlScalar {
  import opened Text
  import opened Numerals
  import opened Values

  /** What a backslash followed by `c` stands for: one character for the five
      recognised escapes, otherwise the two characters themselves. */
  function EscapeDecode(c: char): (r: string)
    ensures IsEscapeLetter(c) ==> r == [if c == 'n' then '\n' else if c == 't' then '\t' else c]
    ensures !IsEscapeLetter(c) ==> r == ['\\', c]
  {
    if c == '\\' then "\\"
    else if c == 'n' then "\n"
    else if c == 't' then "\t"
    else if c == '"' then "\""
    else if c == '/' then "/"
    else ['\\', c]
  }

  /** The characters a backslash escapes: `\\`, `n`, `t`, `"` and `/`. */
  predicate IsEscapeLetter(c: char)
  {
    c == '\\' || c == 'n' || c == 't' || c == '"' || c == '/'
  }

  /** The text of a double-quoted scalar after escape processing. */
  function Unescape(s: string): (r: string)
    ensures |r| <= |s|
    decreases |s|
  {
    if |s| == 0 then ""
    else if s[0] == '\\' && |s| >= 2 then EscapeDecode(s[1]) + Unescape(s[2..])
    else [s[0]] + Unescape(s[1..])
  }

  /** `_unescape_double_quoted`: a left-to-right scan that consumes a backslash
      together with the character after it. */
  method UnescapeDoubleQuoted(s: string) returns (r: string)
    ensures r == Unescape(s)
    ensures |r| <= |s|
  {
    var result := "";
    var i := 0;
    while i < |s|
      invariant 0 <= i <= |s|
      invariant result + Unescape(s[i..]) == Unescape(s)
      decreases |s| - i
    {
      UnescapeFrom(s, i);
      ghost var rest := Unescape(s[i..]);
      if s[i] == '\\' && i + 1 < |s| {
        var d := EscapeDecode(s[i + 1]);
        ghost var after := Unescape(s[i + 2..]);
        assert rest == d + after;
        assert (result + d) + after == result + rest;
        result := result + d;
        i := i + 2;
      } else {
        ghost var after := Unescape(s[i + 1..]);
        assert rest == [s[i]] + after;
        assert (result + [s[i]]) + after == result + rest;
        result := result + [s[i]];
        i := i + 1;
      }
    }
    assert s[i..] == "";
    r := result;
  }

  /** What the scan does at index `i`: an escape pair, or one character kept. */
  lemma UnescapeFrom(s: string, i: nat)
    requires i < |s|
    ensures s[i] == '\\' && i + 1 < |s| ==> Unescape(s[i..]) == EscapeDecode(s[i + 1]) + Unescape(s[i + 2..])
    ensures !(s[i] == '\\' && i + 1 < |s|) ==> Unescape(s[i..]) == [s[i]] + Unescape(s[i + 1..])
  {
    assert s[i..][1..] == s[i + 1..];
    if i + 1 < |s| {
      assert s[i..][2..] == s[i + 2..];
    }
  }

  /** A writer's escaping of a character inside double quotes, with the escapes
      the unescaper recognises; `slash` says whether `/` is written as `\/`. */
  function EscapeChar(c: char, slash: bool): string
  {
    if c == '\\' then "\\\\"
    else if c == '\n' then "\\n"
    else if c == '\t' then "\\t"
    else if c == '"' then "\\\""
    else if c == '/' && slash then "\\/"
    else [c]
  }

  function Escape(t: string, slash: bool): string
  {
    if |t| == 0 then "" else EscapeChar(t[0], slash) + Escape(t[1..], slash)
  }

  /** Unescaping one escaped character reads that character back. */
  lemma EscapeCharStep(c: char, slash: bool, tail: string)
    ensures Unescape(EscapeChar(c, slash) + tail) == [c] + Unescape(tail)
  {
    var e := EscapeChar(c, slash);
    if |e| == 2 {
      assert (e + tail)[0] == '\\' && (e + tail)[1] == e[1];
      assert (e + tail)[2..] == tail;
      assert EscapeDecode(e[1]) == [c];
    } else {
      assert (e + tail)[0] == c && c != '\\';
      assert (e + tail)[1..] == tail;
    }
  }

  /** Unescaping reads an escaped text back and then goes on with whatever follows it. */
  lemma {:induction false} UnescapeAfterEscaped(t: string, slash: bool, x: string)
    ensures Unescape(Escape(t, slash) + x) == t + Unescape(x)
    decreases |t|
  {
    if |t| > 0 {
      var tail := Escape(t[1..], slash) + x;
      UnescapeAfterEscaped(t[1..], slash, x);
      EscapeSplit(t, slash, x);
      EscapeCharStep(t[0], slash, tail);
      PrependFirst(t, Unescape(x));
    } else {
      assert Escape(t, slash) + x == x;
    }
  }

  /** The escaping of a text followed by `x` is the escaping of its first character followed by the rest. */
  lemma EscapeSplit(t: string, slash: bool, x: string)
    requires |t| > 0
    ensures Escape(t, slash) + x == EscapeChar(t[0], slash) + (Escape(t[1..], slash) + x)
  {
  }

  lemma PrependFirst(t: string, u: string)
    requires |t| > 0
    ensures [t[0]] + (t[1..] + u) == t + u
  {
    assert t == [t[0]] + t[1..];
  }

  /** Escaping then unescaping is the identity, whether or not `/` was escaped. */
  lemma UnescapeRoundTrip(t: string, slash: bool)
    ensures Unescape(Escape(t, slash)) == t
  {
    UnescapeAfterEscaped(t, slash, "");
    assert Escape(t, slash) + "" == Escape(t, slash);
  }

  /** Each of the five escapes, in a row, decodes to its character. */
  lemma FiveEscapes(x: string)
    ensures Unescape("\\\\" + "\\n" + "\\t" + "\\\"" + "\\/" + x) == "\\\n\t\"/" + Unescape(x)
  {
    UnescapeAfterEscaped("\\\n\t\"/", true, x);
    assert Escape("\\\n\t\"/", true) == "\\\\" + "\\n" + "\\t" + "\\\"" + "\\/";
  }

  /** A backslash pair that is not one of the five escapes is kept as both characters. */
  lemma UnknownEscapeKept(t: string, slash: bool, c: char, x: string)
    requires !IsEscapeLetter(c)
    ensures Unescape(Escape(t, slash) + ['\\', c] + x) == t + ['\\', c] + Unescape(x)
  {
    var y := ['\\', c] + x;
    assert Escape(t, slash) + ['\\', c] + x == Escape(t, slash) + y;
    UnknownPair(c, x);
    UnescapeAfterEscaped(t, slash, y);
    assert t + (['\\', c] + Unescape(x)) == t + ['\\', c] + Unescape(x);
  }

  /** The pair on its own. */
  lemma UnknownPair(c: char, x: string)
    requires !IsEscapeLetter(c)
    ensures Unescape(['\\', c] + x) == ['\\', c] + Unescape(x)
  {
    assert (['\\', c] + x)[2..] == x;
  }

  /** A backslash that ends the text is kept. */
  lemma FinalBackslashKept(t: string, slash: bool)
    ensures Unescape(Escape(t, slash) + "\\") == t + "\\"
  {
    UnescapeAfterEscaped(t, slash, "\\");
  }

  /** Text without a backslash is unchanged. */
  lemma {:induction false} UnescapeWithoutBackslash(s: string)
    requires '\\' !in s
    ensures Unescape(s) == s
    decreases |s|
  {
    if |s| > 0 {
      assert '\\' !in s[1..] by { assert forall j :: 0 <= j < |s[1..]| ==> s[1..][j] == s[j + 1]; }
      UnescapeWithoutBackslash(s[1..]);
    }
  }

  const TrueWords: seq<string> := ["true", "yes", "on"]
  const FalseWords: seq<string> := ["false", "no", "off"]
  const NullWords: seq<string> := ["null", "~", ""]

  predicate IsDoubleQuoted(t: string)
  {
    StartsWith(t, "\"") && EndsWith(t, "\"")
  }

  predicate IsSingleQuoted(t: string)
  {
    StartsWith(t, "'") && EndsWith(t, "'")
  }

  /** Python `t[1:-1]`. */
  function Inner(t: string): (r: string)
    ensures |t| >= 2 ==> r == t[1..|t| - 1]
    ensures |t| < 2 ==> r == ""
  {
    if |t| >= 2 then t[1..|t| - 1] else ""
  }

  /** `_parse_scalar`; `ParseScalarCases` states what it returns. */
  function ParseScalar(s: string): (r: Value)
    ensures IsScalar(r)
  {
    var t := Strip(s);
    if IsDoubleQuoted(t) then Str(Unescape(Inner(t)))
    else if IsSingleQuoted(t) then Str(Inner(t))
    else
      var lower := Lower(t);
      if lower in TrueWords then Bool(true)
      else if lower in FalseWords then Bool(false)
      else if lower in NullWords then Null
      else if IsIntLiteral(t) then Int(IntValue(t))
      else if IsFloatLiteral(t) then Float(t)
      else Str(t)
  }

  /** The first matching case of `_parse_scalar` wins, in this order: double-quoted,
      single-quoted, boolean word, null word, integer, float, plain string. Each
      kind of result is returned exactly for the texts of its case. */
  lemma ParseScalarCases(s: string)
    ensures var r, t := ParseScalar(s), Strip(s);
      && (IsDoubleQuoted(t) ==> r == Str(Unescape(Inner(t))))
      && (IsSingleQuoted(t) && !IsDoubleQuoted(t) ==> r == Str(Inner(t)))
      && (r == Bool(true) <==> Lower(t) in TrueWords)
      && (r == Bool(false) <==> Lower(t) in FalseWords)
      && (r.Null? <==> Lower(t) in NullWords)
      && (r.Int? <==> IsIntLiteral(t))
      && (r.Int? ==> r.i == IntValue(t))
      && (r.Float? <==> IsFloatLiteral(t) && !IsIntLiteral(t))
      && (r.Float? ==> r.text == t)
      && (r.Str? && r.s != t ==> IsDoubleQuoted(t) || IsSingleQuoted(t))
  {
    var t := Strip(s);
    if IsDoubleQuoted(t) || IsSingleQuoted(t) {
      QuotedIsNoWord(t);
      QuotedIsNoNumber(t);
    } else if Lower(t) in TrueWords + FalseWords + NullWords {
      WordIsNoNumber(t);
      WordsDisjoint(Lower(t));
    }
  }

  /** A quoted text lower-cases to no boolean or null word. */
  lemma QuotedIsNoWord(t: string)
    requires IsDoubleQuoted(t) || IsSingleQuoted(t)
    ensures Lower(t) !in TrueWords && Lower(t) !in FalseWords && Lower(t) !in NullWords
  {
    assert Lower(t)[0] == t[0];
  }

  /** The three word lists share no word. */
  lemma WordsDisjoint(l: string)
    ensures !(l in TrueWords && l in FalseWords)
    ensures !(l in TrueWords && l in NullWords)
    ensures !(l in FalseWords && l in NullWords)
  {
    if l in TrueWords || l in FalseWords {
      assert l != "" && (l[0] == 't' || l[0] == 'y' || l[0] == 'o' || l[0] == 'f' || l[0] == 'n');
      assert l in TrueWords ==> l[0] != 'f' && (l[0] == 'o' ==> l[1] == 'n');
      assert l in FalseWords ==> (l[0] == 'n' ==> l[1] == 'o') && (l[0] == 'o' ==> l[1] == 'f');
    }
  }

  /** A text opening with a quote is neither an integer nor a float literal. */
  lemma QuotedIsNoNumber(t: string)
    requires IsDoubleQuoted(t) || IsSingleQuoted(t)
    ensures !IsIntLiteral(t) && !IsFloatLiteral(t)
  {
    assert t[0] == '"' || t[0] == '\'';
    assert Unsigned(t) == t;
    assert Lower(t)[0] == t[0];
    var k := ExponentAt(t);
    if k > 0 {
      var m := t[..k];
      assert m[0] == t[0];
      if '.' in m {
        assert Before(m, '.') != "" by { assert m[0] != '.'; }
        assert Before(m, '.')[0] == m[0];
      }
    }
  }

  /** No boolean or null word is a numeric literal. */
  lemma WordIsNoNumber(t: string)
    requires Lower(t) in TrueWords + FalseWords + NullWords
    ensures !IsIntLiteral(t) && !IsFloatLiteral(t)
  {
    WordShape(Lower(t));
    if |t| > 0 {
      assert Lower(t)[0] == LowerChar(t[0]);
      assert !IsDigit(t[0]) && !IsSign(t[0]) && t[0] != '.';
      assert Unsigned(t) == t;
      var k := ExponentAt(t);
      if k > 0 {
        var m := t[..k];
        assert m[0] == t[0];
        if '.' in m {
          assert Before(m, '.')[0] == m[0];
        }
      }
    }
  }

  /** The boolean and null words start with a letter or `~` and are no float names. */
  lemma WordShape(w: string)
    requires w in TrueWords + FalseWords + NullWords
    ensures w == "" || w[0] in {'t', 'y', 'o', 'f', 'n', '~'}
    ensures w != "inf" && w != "infinity" && w != "nan"
  {
  }

  /** A double-quoted scalar reads back exactly the text that was escaped into it. */
  lemma DoubleQuotedRoundTrip(t: string, slash: bool)
    ensures ParseScalar("\"" + Escape(t, slash) + "\"") == Str(t)
  {
    var q := "\"" + Escape(t, slash) + "\"";
    assert Strip(q) == q by {
      assert q[0] == '"' && q[|q| - 1] == '"';
      StripTrimmed(q);
    }
    assert IsDoubleQuoted(q) by { assert q[0] == '"' && q[|q| - 1] == '"'; }
    assert Unescape(Inner(q)) == t by {
      assert Inner(q) == Escape(t, slash);
      UnescapeRoundTrip(t, slash);
    }
    ParseScalarCases(q);
  }

  /** A single-quoted scalar is its inner text verbatim: `'true'` is the string `true`. */
  lemma SingleQuotedVerbatim(t: string)
    ensures ParseScalar("'" + t + "'") == Str(t)
  {
    var q := "'" + t + "'";
    assert Strip(q) == q by {
      assert q[0] == '\'' && q[|q| - 1] == '\'';
      StripTrimmed(q);
    }
    assert IsSingleQuoted(q) && !IsDoubleQuoted(q) by { assert q[0] == '\'' && q[|q| - 1] == '\''; }
    assert Inner(q) == t;
    ParseScalarCases(q);
  }

  /** A rendered integer is read back as that integer. */
  lemma IntScalarRoundTrip(n: int)
    ensures ParseScalar(Show(n)) == Int(n)
  {
    var t := Show(n);
    assert Strip(t) == t by { StripTrimmed(t); }
    assert IsIntLiteral(t) && IntValue(t) == n by { IntRoundTrip(n); }
    ParseScalarCases(t);
  }
}
