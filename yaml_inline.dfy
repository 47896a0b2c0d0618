/** Flow-style values of the fallback YAML parser: `_split_top_level`,
    `_parse_inline_list` and `_parse_inline_dict`. */
module YamlInline {
  import opened Common
  import opened Text
  import opened Assoc
  import opened Values
  import opened Numerals
  import opened YamlLines
  import opened YamlScalar

  /** The state `_split_top_level` carries: the open quote and the bracket and
      brace depths. Depths may go negative on unbalanced input. */
  datatype Scan = Scan(quote: Quote, brackets: int, braces: int)

  const Top := Scan(NoQuote, 0, 0)

  /** One character of the scan. Inside quotes only the closing quote counts;
      there is no escape handling. */
  function ScanStep(st: Scan, c: char): (r: Scan)
    ensures st.quote.InQuote? && st.quote != InQuote(c) ==> r == st
    ensures st.quote == NoQuote && !IsQuoteChar(c) ==> r.quote == NoQuote
    ensures r.brackets != st.brackets ==> st.quote == NoQuote && (c == '[' || c == ']')
    ensures r.braces != st.braces ==> st.quote == NoQuote && (c == '{' || c == '}')
    ensures -1 <= r.brackets - st.brackets <= 1 && -1 <= r.braces - st.braces <= 1
  {
    if IsQuoteChar(c) && st.quote == NoQuote then st.(quote := InQuote(c))
    else if st.quote == InQuote(c) then st.(quote := NoQuote)
    else if st.quote != NoQuote then st
    else if c == '[' then st.(brackets := st.brackets + 1)
    else if c == ']' then st.(brackets := st.brackets - 1)
    else if c == '{' then st.(braces := st.braces + 1)
    else if c == '}' then st.(braces := st.braces - 1)
    else st
  }

  /** The scan state before index `i`. */
  function ScanAt(s: string, i: nat): (r: Scan)
    requires i <= |s|
    ensures r.quote.InQuote? ==> IsQuoteChar(r.quote.q)
    decreases i
  {
    if i == 0 then Top else ScanStep(ScanAt(s, i - 1), s[i - 1])
  }

  /** The `,` at index `i` separates two top-level parts. */
  predicate IsCut(s: string, i: nat)
    requires i < |s|
    ensures IsCut(s, i) ==> ScanAt(s, i + 1) == Top
  {
    s[i] == ',' && ScanAt(s, i) == Top
  }

  /** Index of the first top-level `,` at or after `i`, or `|s|`. */
  function FirstCut(s: string, i: nat): (k: nat)
    requires i <= |s|
    ensures i <= k <= |s|
    ensures k < |s| ==> IsCut(s, k)
    ensures forall j :: i <= j < k ==> !IsCut(s, j)
    decreases |s| - i
  {
    if i == |s| then |s|
    else if IsCut(s, i) then i
    else FirstCut(s, i + 1)
  }

  /** The parts `_split_top_level` returns: the text between top-level commas;
      a part after the last comma is kept only when it is not empty. */
  function Split(s: string): (r: seq<string>)
    ensures r == [] <==> s == ""
    ensures |r| <= |s|
  {
    SplitFrom(s, 0)
  }

  /** The parts from the top-level position `p` on. */
  function SplitFrom(s: string, p: nat): (r: seq<string>)
    requires p <= |s|
    ensures r == [] <==> p == |s|
    ensures |r| <= |s| - p
    decreases |s| - p
  {
    var k := FirstCut(s, p);
    if k == |s| then (if p == |s| then [] else [s[p..]])
    else [s[p..k]] + SplitFrom(s, k + 1)
  }

  /** Joining the parts with commas gives the text back, but for a trailing
      comma, which leaves no part; there are no parts only at the end. */
  lemma {:induction false} SplitFromJoin(s: string, p: nat)
    requires p <= |s|
    ensures SplitFrom(s, p) == [] <==> p == |s|
    ensures JoinWith(SplitFrom(s, p), ',') == s[p..] || JoinWith(SplitFrom(s, p), ',') + "," == s[p..]
    decreases |s| - p
  {
    var k := FirstCut(s, p);
    if k < |s| {
      var part, rest := s[p..k], SplitFrom(s, k + 1);
      assert SplitFrom(s, p) == [part] + rest;
      SplitFromJoin(s, k + 1);
      assert s[p..] == part + "," + s[k + 1..];
      if rest == [] {
        assert s[k + 1..] == "";
        assert JoinWith(SplitFrom(s, p), ',') + "," == s[p..];
      } else {
        var tail := JoinWith(rest, ',');
        assert ([part] + rest)[1..] == rest;
        assert JoinWith(SplitFrom(s, p), ',') == part + "," + tail;
        if tail == s[k + 1..] {
          assert JoinWith(SplitFrom(s, p), ',') == s[p..];
        } else {
          assert tail + "," == s[k + 1..];
          assert (part + "," + tail) + "," == part + "," + (tail + ",");
          assert JoinWith(SplitFrom(s, p), ',') + "," == s[p..];
        }
      }
    }
  }

  /** No part from `p` on is longer than the text after `p`. */
  lemma {:induction false} SplitFromBounded(s: string, p: nat)
    requires p <= |s|
    ensures forall i :: 0 <= i < |SplitFrom(s, p)| ==> |SplitFrom(s, p)[i]| <= |s| - p
    decreases |s| - p
  {
    var k := FirstCut(s, p);
    if k < |s| {
      var rest := SplitFrom(s, k + 1);
      assert SplitFrom(s, p) == [s[p..k]] + rest;
      SplitFromBounded(s, k + 1);
    }
  }

  lemma SplitJoin(s: string)
    ensures Split(s) == [] <==> s == ""
    ensures forall i :: 0 <= i < |Split(s)| ==> |Split(s)[i]| <= |s|
    ensures JoinWith(Split(s), ',') == s || JoinWith(Split(s), ',') + "," == s
  {
    SplitFromJoin(s, 0);
    SplitFromBounded(s, 0);
    assert s[0..] == s;
  }

  /** No part is longer than the text. */
  lemma SplitBounded(s: string)
    ensures forall i :: 0 <= i < |Split(s)| ==> |Split(s)[i]| <= |s|
  {
    SplitJoin(s);
  }

  /** The first cut from `i` is at `m` when `m` is a cut (or the end) and nothing before it is. */
  lemma {:induction false} FirstCutAt(t: string, i: nat, m: nat)
    requires i <= m <= |t|
    requires m < |t| ==> IsCut(t, m)
    requires forall j :: i <= j < m ==> !IsCut(t, j)
    ensures FirstCut(t, i) == m
    decreases m - i
  {
    if i < m {
      FirstCutAt(t, i + 1, m);
    }
  }

  /** A top-level comma at `i`, with none between `p` and it, closes the part `s[p..i]`. */
  lemma SplitFromCut(s: string, p: nat, i: nat)
    requires p <= i < |s| && IsCut(s, i) && FirstCut(s, p) >= i
    ensures SplitFrom(s, p) == [s[p..i]] + SplitFrom(s, i + 1)
  {
  }

  /** Closing the part at a top-level comma keeps the parts so far plus the rest equal to the split. */
  lemma CutKeepsSplit(s: string, parts: seq<string>, p: nat, i: nat)
    requires p <= i < |s| && IsCut(s, i) && FirstCut(s, p) >= i
    requires parts + SplitFrom(s, p) == Split(s)
    ensures (parts + [s[p..i]]) + SplitFrom(s, i + 1) == Split(s)
  {
    SplitFromCut(s, p, i);
    var later := SplitFrom(s, i + 1);
    assert (parts + [s[p..i]]) + later == parts + ([s[p..i]] + later);
  }

  /** A character that is not a top-level comma extends the current part. */
  lemma ScanOn(s: string, p: nat, i: nat)
    requires p <= i < |s| && FirstCut(s, p) >= i && !IsCut(s, i)
    ensures FirstCut(s, p) >= i + 1
    ensures ScanAt(s, i + 1) == ScanStep(ScanAt(s, i), s[i])
    ensures s[p..i + 1] == s[p..i] + [s[i]]
  {
  }

  /** `_split_top_level` with a `,` delimiter: one scan that closes a part at
      each top-level comma and otherwise takes one `ScanStep`. */
  method SplitTopLevel(s: string) returns (parts: seq<string>)
    ensures parts == Split(s)
  {
    parts := [];
    var current := "";
    var st := Top;
    var p := 0;
    var i := 0;
    while i < |s|
      invariant 0 <= p <= i <= |s|
      invariant current == s[p..i]
      invariant st == ScanAt(s, i)
      invariant FirstCut(s, p) >= i
      invariant parts + SplitFrom(s, p) == Split(s)
      decreases |s| - i
    {
      var c := s[i];
      if c == ',' && st == Top {
        CutKeepsSplit(s, parts, p, i);
        parts := parts + [current];
        current := "";
        i := i + 1;
        p := i;
      } else {
        ScanOn(s, p, i);
        st := ScanStep(st, c);
        current := current + [c];
        i := i + 1;
      }
    }
    assert FirstCut(s, p) == |s|;
    assert current == s[p..];
    if current != "" {
      parts := parts + [current];
    }
  }

  /** A scan that restarts at a top-level position sees the same states. */
  lemma {:induction false} ScanShift(s: string, p: nat, j: nat)
    requires p <= j <= |s| && ScanAt(s, p) == Top
    ensures ScanAt(s[p..], j - p) == ScanAt(s, j)
    decreases j
  {
    if j > p {
      ScanShift(s, p, j - 1);
      assert s[p..][j - 1 - p] == s[j - 1];
    }
  }

  /** A scan of a slice that ends before `k` sees what the whole scan sees. */
  lemma {:induction false} ScanPrefix(s: string, k: nat, j: nat)
    requires j <= k <= |s|
    ensures ScanAt(s[..k], j) == ScanAt(s, j)
    decreases j
  {
    if j > 0 {
      ScanPrefix(s, k, j - 1);
    }
  }

  /** A cut of the slice `s[p..k]` taken at a top-level position `p` is a cut of `s`. */
  lemma SliceCut(s: string, p: nat, k: nat, j: nat)
    requires p <= k <= |s| && ScanAt(s, p) == Top && p + j < k
    ensures IsCut(s[p..k], j) ==> IsCut(s, p + j)
  {
    ScanPrefix(s, k, p + j);
    ScanPrefix(s, k, p);
    ScanShift(s[..k], p, p + j);
    assert s[..k][p..] == s[p..k];
    assert s[p..k][j] == s[p + j];
  }

  /** A part contains no top-level comma of its own. */
  lemma {:induction false} SplitFromUncut(s: string, p: nat)
    requires p <= |s| && ScanAt(s, p) == Top
    ensures forall i, j :: 0 <= i < |SplitFrom(s, p)| && 0 <= j < |SplitFrom(s, p)[i]| ==> !IsCut(SplitFrom(s, p)[i], j)
    decreases |s| - p
  {
    var k := FirstCut(s, p);
    forall j | 0 <= j < k - p
      ensures !IsCut(s[p..k], j)
    {
      SliceCut(s, p, k, j);
    }
    if k < |s| {
      assert ScanAt(s, k + 1) == Top;
      SplitFromUncut(s, k + 1);
    } else if p < |s| {
      assert s[p..k] == s[p..];
      assert SplitFrom(s, p) == [s[p..k]];
    }
  }

  lemma SplitPartsUncut(s: string)
    ensures forall i, j :: 0 <= i < |Split(s)| && 0 <= j < |Split(s)[i]| ==> !IsCut(Split(s)[i], j)
  {
    SplitFromUncut(s, 0);
  }

  /** Where each part from `p` on ends: the index of the comma that closes it,
      or `|s|` for a last part. */
  ghost function PartEnds(s: string, p: nat): seq<nat>
    requires p <= |s|
    decreases |s| - p
  {
    var k := FirstCut(s, p);
    if k == |s| then (if p == |s| then [] else [|s|])
    else [k] + PartEnds(s, k + 1)
  }

  /** The parts lie between consecutive ends, the first one starting at `p`;
      every end is a top-level comma or the end of the text. */
  ghost predicate PartsBetween(s: string, p: nat, e: seq<nat>, parts: seq<string>)
  {
    && |e| == |parts|
    && (forall i :: 0 <= i < |e| ==> p <= e[i] <= |s| && (e[i] < |s| ==> IsCut(s, e[i])))
    && (|e| > 0 ==> parts[0] == s[p..e[0]])
    && (forall i :: 0 < i < |e| ==> e[i - 1] + 1 <= e[i] && parts[i] == s[e[i - 1] + 1..e[i]])
  }

  /** A part closed by the top-level comma at `k` goes in front of the parts after it. */
  lemma PartsBetweenCons(s: string, p: nat, k: nat, e: seq<nat>, parts: seq<string>)
    requires p <= k < |s| && IsCut(s, k)
    requires PartsBetween(s, k + 1, e, parts)
    ensures PartsBetween(s, p, [k] + e, [s[p..k]] + parts)
  {
    var e2, parts2 := [k] + e, [s[p..k]] + parts;
    forall i | 0 < i < |e2|
      ensures e2[i - 1] + 1 <= e2[i] && parts2[i] == s[e2[i - 1] + 1..e2[i]]
    {
      assert parts2[i] == parts[i - 1] && e2[i] == e[i - 1];
      if i > 1 {
        assert e2[i - 1] == e[i - 2];
      }
    }
  }

  /** The parts from `p` on lie between the ends `PartEnds`. */
  lemma {:induction false} SplitFromEnds(s: string, p: nat)
    requires p <= |s|
    ensures PartsBetween(s, p, PartEnds(s, p), SplitFrom(s, p))
    decreases |s| - p
  {
    var k := FirstCut(s, p);
    if k < |s| {
      SplitFromEnds(s, k + 1);
      PartsBetweenCons(s, p, k, PartEnds(s, k + 1), SplitFrom(s, k + 1));
    }
  }

  /** Every top-level comma from `p` on ends a part. */
  lemma {:induction false} CutsAreEnds(s: string, p: nat)
    requires p <= |s|
    ensures forall j :: p <= j < |s| && IsCut(s, j) ==> j in PartEnds(s, p)
    decreases |s| - p
  {
    var k := FirstCut(s, p);
    if k < |s| {
      CutsAreEnds(s, k + 1);
      assert PartEnds(s, p) == [k] + PartEnds(s, k + 1);
    }
  }

  /** The parts of the text end exactly at its top-level commas, so a comma inside
      quotes or brackets never ends a part: it lies inside one. */
  lemma SplitAtCuts(s: string)
    ensures PartsBetween(s, 0, PartEnds(s, 0), Split(s))
    ensures forall j :: 0 <= j < |s| && IsCut(s, j) ==> j in PartEnds(s, 0)
  {
    SplitFromEnds(s, 0);
    CutsAreEnds(s, 0);
  }

  /** In particular the bracketed list `[a,b]` is one part. */
  lemma BracketedCommaKept()
    ensures Split("[a,b]") == ["[a,b]"]
  {
    var s := "[a,b]";
    assert ScanAt(s, 3).brackets == 1;
    FirstCutAt(s, 0, 5);
  }

  /** Plain text: no quote, bracket, brace or comma, so the scan never leaves the top level. */
  predicate IsPlain(t: string)
  {
    forall i :: 0 <= i < |t| ==> IsPlainChar(t[i])
  }

  predicate IsPlainChar(c: char)
  {
    !IsQuoteChar(c) && c != '[' && c != ']' && c != '{' && c != '}' && c != ','
  }

  lemma ShowIsPlain(n: int)
    ensures Show(n) != "" && IsPlain(Show(n))
  {
  }

  /** Scanning through plain text keeps the top-level state. */
  lemma {:induction false} ScanPlain(s: string, p: nat, j: nat)
    requires p <= j <= |s| && ScanAt(s, p) == Top
    requires forall i :: p <= i < j ==> IsPlainChar(s[i])
    ensures ScanAt(s, j) == Top
    decreases j
  {
    if j > p {
      ScanPlain(s, p, j - 1);
    }
  }

  /** From a top-level position, a comma-join of non-empty plain words splits into the words. */
  lemma {:induction false} SplitFromPlain(s: string, p: nat, words: seq<string>)
    requires p <= |s| && ScanAt(s, p) == Top
    requires s[p..] == JoinWith(words, ',')
    requires forall i :: 0 <= i < |words| ==> words[i] != "" && IsPlain(words[i])
    ensures SplitFrom(s, p) == words
    decreases |words|
  {
    if |words| == 0 {
      FirstCutAt(s, p, |s|);
    } else {
      var w := words[0];
      var m := p + |w|;
      FirstPlainWord(s, p, words);
      FirstCutAt(s, p, m);
      if |words| > 1 {
        SplitFromPlain(s, m + 1, words[1..]);
        assert words == [w] + words[1..];
      }
    }
  }

  /** The first word of a plain comma-join starting at a top-level position `p`. */
  lemma FirstPlainWord(s: string, p: nat, words: seq<string>)
    requires p <= |s| && ScanAt(s, p) == Top
    requires s[p..] == JoinWith(words, ',')
    requires |words| > 0 && IsPlain(words[0])
    ensures var m := p + |words[0]|;
      m <= |s| && s[p..m] == words[0] && ScanAt(s, m) == Top
      && (forall j :: p <= j < m ==> !IsCut(s, j))
      && (|words| == 1 ==> m == |s|)
      && (|words| > 1 ==> m < |s| && IsCut(s, m) && ScanAt(s, m + 1) == Top
                          && s[m + 1..] == JoinWith(words[1..], ','))
  {
    var w := words[0];
    var m := p + |w|;
    if |words| > 1 {
      assert s[p..] == w + [','] + JoinWith(words[1..], ',');
    }
    assert s[p..m] == w;
    forall j | p <= j <= m
      ensures ScanAt(s, j) == Top
    {
      ScanPlain(s, p, j);
    }
    forall j | p <= j < m
      ensures !IsCut(s, j)
    {
      assert s[j] == w[j - p];
    }
    if |words| > 1 {
      assert s[m] == ',';
      assert ScanAt(s, m + 1) == ScanStep(Top, ',');
    }
  }

  lemma SplitPlainJoin(words: seq<string>)
    requires forall i :: 0 <= i < |words| ==> words[i] != "" && IsPlain(words[i])
    ensures Split(JoinWith(words, ',')) == words
  {
    var s := JoinWith(words, ',');
    assert s[0..] == s;
    SplitFromPlain(s, 0, words);
  }

  /** The text between the brackets of `[ ... ]`; either bracket may be missing. */
  function Unwrap(s: string, open: char, close: char): (r: string)
    ensures |r| <= |s|
  {
    var t := Strip(s);
    var t1 := if StartsWith(t, [open]) then t[1..] else t;
    if EndsWith(t1, [close]) then t1[..|t1| - 1] else t1
  }

  lemma UnwrapWrapped(t: string, open: char, close: char)
    requires !IsSpace(open) && !IsSpace(close)
    ensures Unwrap([open] + t + [close], open, close) == t
  {
    var w := [open] + t + [close];
    StripTrimmed(w);
    assert w[1..] == t + [close];
  }

  /** The items of an inline list: each non-blank stripped part read as a scalar. */
  function ScalarItems(parts: seq<string>): (r: seq<Value>)
    ensures |r| <= |parts|
    ensures forall i :: 0 <= i < |r| ==> IsScalar(r[i])
  {
    if parts == [] then []
    else
      var rest := ScalarItems(parts[1..]);
      var item := Strip(parts[0]);
      if item != "" then [ParseScalar(item)] + rest else rest
  }

  /** `_parse_inline_list`: a flat list of scalars; nested brackets are not parsed. */
  function InlineList(s: string): (r: Value)
    ensures r.List?
    ensures forall i :: 0 <= i < |r.items| ==> IsScalar(r.items[i])
  {
    List(ScalarItems(Split(Unwrap(s, '[', ']'))))
  }

  function ShowAll(ns: seq<int>): (r: seq<string>)
    ensures |r| == |ns|
    ensures forall i :: 0 <= i < |ns| ==> r[i] == Show(ns[i])
  {
    if ns == [] then [] else [Show(ns[0])] + ShowAll(ns[1..])
  }

  function IntValues(ns: seq<int>): (r: seq<Value>)
    ensures |r| == |ns|
    ensures forall i :: 0 <= i < |ns| ==> r[i] == Int(ns[i])
  {
    if ns == [] then [] else [Int(ns[0])] + IntValues(ns[1..])
  }

  /** Every rendered integer reads back as an item of its own. */
  lemma {:induction false} ScalarItemsShown(ns: seq<int>)
    ensures ScalarItems(ShowAll(ns)) == IntValues(ns)
    decreases |ns|
  {
    if ns != [] {
      ScalarItemsShown(ns[1..]);
      StripTrimmed(Show(ns[0]));
      IntScalarRoundTrip(ns[0]);
      assert ShowAll(ns)[1..] == ShowAll(ns[1..]);
    }
  }

  /** `[1,2,3]` reads back as the list of those integers. */
  lemma InlineListOfInts(ns: seq<int>)
    ensures InlineList("[" + JoinWith(ShowAll(ns), ',') + "]") == List(IntValues(ns))
  {
    var words := ShowAll(ns);
    var body := JoinWith(words, ',');
    forall i | 0 <= i < |words|
      ensures words[i] != "" && IsPlain(words[i])
    {
      ShowIsPlain(ns[i]);
    }
    UnwrapWrapped(body, '[', ']');
    assert "[" + body + "]" == ['['] + body + [']'];
    assert Unwrap("[" + body + "]", '[', ']') == body;
    SplitPlainJoin(words);
    ScalarItemsShown(ns);
  }

  /** The key a part contributes to an inline dict: the stripped text before its first `:`. */
  function PairKey(part: string): Option<string>
  {
    var pair := Strip(part);
    if ':' in pair then Some(Strip(Before(pair, ':'))) else None
  }

  /** A flow value: an inline list, an inline dict, or a scalar. */
  function InlineValue(v: string): (r: Value)
    ensures r.List? <==> StartsWith(v, "[")
    ensures r.Map? <==> !StartsWith(v, "[") && StartsWith(v, "{")
    decreases |v|, 2
  {
    if StartsWith(v, "[") then InlineList(v)
    else if StartsWith(v, "{") then InlineDict(v)
    else ParseScalar(v)
  }

  /** `_parse_inline_dict`. */
  function InlineDict(s: string): (r: Value)
    ensures r.Map?
    decreases |s|, 1
  {
    var parts := Split(Unwrap(s, '{', '}'));
    SplitBounded(Unwrap(s, '{', '}'));
    Map(AddPairs([], parts, |s|))
  }

  /** The entries after storing each `key: value` part in turn; later parts
      overwrite earlier ones with the same key. */
  function AddPairs(acc: Entries<Value>, parts: seq<string>, bound: nat): (r: Entries<Value>)
    requires forall i :: 0 <= i < |parts| ==> |parts[i]| <= bound
    decreases bound, 0, |parts|
  {
    if parts == [] then acc
    else AddPairs(AddPair(acc, parts[0], bound), parts[1..], bound)
  }

  /** Stores one part: a part with a `:` maps its stripped key to its flow value;
      any other part is skipped. */
  function AddPair(acc: Entries<Value>, part: string, bound: nat): (r: Entries<Value>)
    requires |part| <= bound
    ensures PairKey(part).Some? ==> r == Put(acc, PairKey(part).value, InlineValue(Strip(After(Strip(part), ':'))))
    ensures PairKey(part).None? ==> r == acc
    decreases bound, 0, 0
  {
    var pair := Strip(part);
    if ':' in pair then
      var v := Strip(After(pair, ':'));
      Put(acc, Strip(Before(pair, ':')), InlineValue(v))
    else acc
  }

  /** Some part of `parts` is a `key: value` pair with key `k`. */
  predicate Contributes(parts: seq<string>, k: string)
  {
    exists i :: 0 <= i < |parts| && PairKey(parts[i]) == Some(k)
  }

  lemma ContributesCons(parts: seq<string>, k: string)
    requires parts != []
    ensures Contributes(parts, k) <==> PairKey(parts[0]) == Some(k) || Contributes(parts[1..], k)
  {
    if Contributes(parts, k) {
      var i :| 0 <= i < |parts| && PairKey(parts[i]) == Some(k);
      if i > 0 {
        assert PairKey(parts[1..][i - 1]) == Some(k);
      }
    }
    if Contributes(parts[1..], k) {
      var i :| 0 <= i < |parts[1..]| && PairKey(parts[1..][i]) == Some(k);
      assert PairKey(parts[i + 1]) == Some(k);
    }
  }

  /** A key is in the dict exactly when some part contributes it (or it was there before). */
  lemma {:induction false} AddPairsKeys(acc: Entries<Value>, parts: seq<string>, bound: nat, k: string)
    requires forall i :: 0 <= i < |parts| ==> |parts[i]| <= bound
    ensures HasKey(AddPairs(acc, parts, bound), k) <==> HasKey(acc, k) || Contributes(parts, k)
    decreases |parts|
  {
    if parts != [] {
      var next := AddPair(acc, parts[0], bound);
      assert HasKey(next, k) <==> HasKey(acc, k) || PairKey(parts[0]) == Some(k);
      ContributesCons(parts, k);
      AddPairsKeys(next, parts[1..], bound, k);
    }
  }

  /** The keys of an inline dict are exactly the keys of its `key: value` parts. */
  lemma InlineDictKeys(s: string, k: string)
    ensures HasKey(InlineDict(s).entries, k) <==> Contributes(Split(Unwrap(s, '{', '}')), k)
  {
    SplitBounded(Unwrap(s, '{', '}'));
    AddPairsKeys([], Split(Unwrap(s, '{', '}')), |s|, k);
  }

  /** Storing parts keeps the keys unique. */
  lemma {:induction false} AddPairsUnique(acc: Entries<Value>, parts: seq<string>, bound: nat)
    requires forall i :: 0 <= i < |parts| ==> |parts[i]| <= bound
    requires UniqueKeys(acc)
    ensures UniqueKeys(AddPairs(acc, parts, bound))
    decreases |parts|
  {
    if parts != [] {
      AddPairsUnique(AddPair(acc, parts[0], bound), parts[1..], bound);
    }
  }

  lemma AddPairStored(acc: Entries<Value>, part: string, bound: nat)
    requires |part| <= bound && ':' in Strip(part)
    ensures AddPair(acc, part, bound) == Put(acc, Strip(Before(Strip(part), ':')), InlineValue(Strip(After(Strip(part), ':'))))
  {
  }

  lemma AddPairSkipped(acc: Entries<Value>, part: string, bound: nat)
    requires |part| <= bound && ':' !in Strip(part)
    ensures AddPair(acc, part, bound) == acc
  {
  }

  /** Storing one more part after the first `|parts|` ones. */
  lemma {:induction false} AddPairsSnoc(acc: Entries<Value>, parts: seq<string>, part: string, bound: nat)
    requires |part| <= bound && forall j :: 0 <= j < |parts| ==> |parts[j]| <= bound
    ensures AddPairs(acc, parts + [part], bound) == AddPair(AddPairs(acc, parts, bound), part, bound)
    decreases |parts|
  {
    if parts == [] {
      assert [] + [part] == [part];
    } else {
      assert (parts + [part])[1..] == parts[1..] + [part];
      AddPairsSnoc(AddPair(acc, parts[0], bound), parts[1..], part, bound);
    }
  }

  /** The dict `_parse_inline_dict` builds has no repeated key. */
  lemma InlineDictUnique(s: string)
    ensures UniqueKeys(InlineDict(s).entries)
  {
    SplitBounded(Unwrap(s, '{', '}'));
    AddPairsUnique([], Split(Unwrap(s, '{', '}')), |s|);
  }

  /** Every dict inside a flow value, at any depth, has unique keys. */
  lemma {:induction false} InlineValueWellKeyed(v: string)
    ensures WellKeyed(InlineValue(v))
    decreases |v|, 2
  {
    if StartsWith(v, "[") {
      InlineListWellKeyed(v);
    } else if StartsWith(v, "{") {
      InlineDictWellKeyed(v);
    } else {
      ScalarWellKeyed(ParseScalar(v));
    }
  }

  lemma InlineListWellKeyed(s: string)
    ensures WellKeyed(InlineList(s))
  {
    var items := InlineList(s).items;
    forall i | 0 <= i < |items|
      ensures WellKeyed(items[i])
    {
      ScalarWellKeyed(items[i]);
    }
  }

  lemma {:induction false} InlineDictWellKeyed(s: string)
    ensures WellKeyed(InlineDict(s))
    decreases |s|, 1
  {
    SplitBounded(Unwrap(s, '{', '}'));
    AddPairsWellKeyed([], Split(Unwrap(s, '{', '}')), |s|);
  }

  lemma {:induction false} AddPairsWellKeyed(acc: Entries<Value>, parts: seq<string>, bound: nat)
    requires forall i :: 0 <= i < |parts| ==> |parts[i]| <= bound
    requires WellKeyed(Map(acc))
    ensures WellKeyed(Map(AddPairs(acc, parts, bound)))
    decreases bound, 0, |parts|
  {
    if parts != [] {
      var pair := Strip(parts[0]);
      if ':' in pair {
        var v := Strip(After(pair, ':'));
        InlineValueWellKeyed(v);
        PutWellKeyed(acc, Strip(Before(pair, ':')), InlineValue(v));
      }
      AddPairsWellKeyed(AddPair(acc, parts[0], bound), parts[1..], bound);
    }
  }

  /** `_parse_inline_list`: the parts of the bracketed text, each non-blank one read as a scalar. */
  method ParseInlineList(s: string) returns (r: Value)
    ensures r == InlineList(s)
  {
    var parts := SplitTopLevel(Unwrap(s, '[', ']'));
    r := List(ScalarItems(parts));
  }

  /** `_parse_inline_dict` as the loop over the parts, with nested dicts parsed recursively. */
  method ParseInlineDict(s: string) returns (r: Value)
    ensures r == InlineDict(s)
    decreases |s|, 2
  {
    var body := Unwrap(s, '{', '}');
    var parts := SplitTopLevel(body);
    SplitBounded(body);
    var result := StorePairs(parts, |s|);
    r := Map(result);
  }

  /** The loop of `_parse_inline_dict`: every part stored in turn into an empty dict. */
  method StorePairs(parts: seq<string>, bound: nat) returns (result: Entries<Value>)
    requires forall j :: 0 <= j < |parts| ==> |parts[j]| <= bound
    ensures result == AddPairs([], parts, bound)
    decreases bound, 1
  {
    result := [];
    var i := 0;
    while i < |parts|
      invariant 0 <= i <= |parts|
      invariant result == AddPairs([], parts[..i], bound)
      decreases |parts| - i
    {
      result := StorePair(result, parts[i], bound);
      TakeSnoc(parts, i);
      AddPairsSnoc([], parts[..i], parts[i], bound);
      i := i + 1;
    }
    assert parts[..i] == parts;
  }

  /** One step of the loop of `_parse_inline_dict`: a `key: value` part stores the
      flow value under the stripped key; a part without `:` is skipped. */
  method StorePair(acc: Entries<Value>, part: string, bound: nat) returns (r: Entries<Value>)
    requires |part| <= bound
    ensures r == AddPair(acc, part, bound)
    decreases bound, 0
  {
    var pair := Strip(part);
    if ':' in pair {
      var k := Before(pair, ':');
      var v := Strip(After(pair, ':'));
      var value;
      if StartsWith(v, "[") {
        value := ParseInlineList(v);
      } else if StartsWith(v, "{") {
        value := ParseInlineDict(v);
      } else {
        value := ParseScalar(v);
      }
      r := Put(acc, Strip(k), value);
    } else {
      r := acc;
    }
  }
}
