/** `parse_yaml_simple` of the rubric indexer: a flat line parser for
    `key: value` pairs and `key:` followed by `- item` lists, with no nesting. */
module RubricIndex {
  import opened Common
  import opened Text
  import opened Assoc

  /** A value in the index: a string or a list of strings. */
  datatype RubricValue = Scalar(s: string) | Items(items: seq<string>)

  /** The loop state: the result so far, the key of the open list (`""` when no
      list is open; Python's `None` and `""` are both false there) and its items. */
  datatype State = State(result: Entries<RubricValue>, listKey: string, items: seq<string>)

  const Start: State := State([], "", [])

  predicate IsQuote(c: char)
  {
    c == '"' || c == '\''
  }

  /** `r` is the slice of `s` from `a` on, and everything of `s` before and after
      that slice is a quote character. */
  ghost predicate QuotesAround(s: string, r: string, a: int)
  {
    && 0 <= a <= |s| - |r| && r == s[a..a + |r|]
    && (forall i :: 0 <= i < a ==> IsQuote(s[i]))
    && (forall i :: a + |r| <= i < |s| ==> IsQuote(s[i]))
  }

  /** Python `s.strip('"\'')`: quote characters removed from both ends, in any
      number and mix; `StripQuotesSlice` states that nothing else is removed. */
  function StripQuotes(s: string): (r: string)
    ensures |r| <= |s|
    ensures r == [] || (!IsQuote(r[0]) && !IsQuote(r[|r| - 1]))
    ensures forall c :: c in r ==> c in s
    decreases |s|
  {
    if |s| > 0 && IsQuote(s[0]) then StripQuotes(s[1..])
    else if |s| > 0 && IsQuote(s[|s| - 1]) then StripQuotes(s[..|s| - 1])
    else s
  }

  /** Stripping quotes leaves the slice of `s` between quote characters at the two ends. */
  lemma {:induction false} StripQuotesSlice(s: string)
    ensures exists a :: QuotesAround(s, StripQuotes(s), a)
    decreases |s|
  {
    var r := StripQuotes(s);
    if |s| > 0 && IsQuote(s[0]) {
      var t := s[1..];
      StripQuotesSlice(t);
      var a :| QuotesAround(t, r, a);
      assert r == s[a + 1..a + 1 + |r|];
      assert forall i :: 0 < i < |s| ==> s[i] == t[i - 1];
      assert QuotesAround(s, r, a + 1);
    } else if |s| > 0 && IsQuote(s[|s| - 1]) {
      var t := s[..|s| - 1];
      StripQuotesSlice(t);
      var a :| QuotesAround(t, r, a);
      assert r == s[a..a + |r|];
      assert forall i :: 0 <= i < |t| ==> s[i] == t[i];
      assert QuotesAround(s, r, a);
    } else {
      assert QuotesAround(s, s, 0);
    }
  }

  /** The text of a value or item as stored: white space, then quote characters, stripped. */
  function Clean(s: string): (r: string)
    ensures |r| <= |s|
    ensures r == [] || (!IsQuote(r[0]) && !IsQuote(r[|r| - 1]))
  {
    StripQuotes(Strip(s))
  }

  /** `r` is the slice of `s` that starts at `a`. */
  ghost predicate PieceAt(s: string, r: string, a: int)
  {
    0 <= a <= |s| - |r| && r == s[a..a + |r|]
  }

  /** A slice of a slice is a slice. */
  lemma PieceOfPiece(s: string, t: string, r: string, a1: int, a2: int)
    requires PieceAt(s, t, a1) && PieceAt(t, r, a2)
    ensures PieceAt(s, r, a1 + a2)
  {
    assert forall i :: 0 <= i < |r| ==> r[i] == t[a2 + i] == s[a1 + a2 + i];
  }

  /** The cleaned text is one contiguous piece of the raw text. */
  lemma CleanSlice(s: string)
    ensures exists a :: PieceAt(s, Clean(s), a)
  {
    var t := Strip(s);
    var r := StripQuotes(t);
    StripSlice(s);
    var a1 :| SpaceAround(s, t, a1);
    StripQuotesSlice(t);
    var a2 :| QuotesAround(t, r, a2);
    PieceOfPiece(s, t, r, a1, a2);
    assert r == Clean(s);
  }

  /** Every value is a string or a non-empty list, as the index format promises. */
  predicate ValuesOk(m: Entries<RubricValue>)
  {
    forall i :: 0 <= i < |m| ==> m[i].1.Items? ==> m[i].1.items != []
  }

  /** The state is consistent: its result keeps `ValuesOk` and has no repeated key. */
  ghost predicate Good(st: State)
  {
    ValuesOk(st.result) && UniqueKeys(st.result)
  }

  /** "Save previous list if any": the open list is written only when it holds an item. */
  function Flush(st: State): (r: State)
    ensures Good(st) ==> Good(r)
  {
    if st.listKey != "" && st.items != [] then
      PutValuesOk(st.result, st.listKey, Items(st.items));
      State(Put(st.result, st.listKey, Items(st.items)), "", [])
    else st
  }

  /** Storing a string or a non-empty list keeps `ValuesOk`. */
  lemma PutValuesOk(m: Entries<RubricValue>, k: string, v: RubricValue)
    requires v.Items? ==> v.items != []
    ensures ValuesOk(m) ==> ValuesOk(Put(m, k, v))
  {
    if !ValuesOk(m) {
      return;
    }
    var r := Put(m, k, v);
    forall i | 0 <= i < |r| && r[i].1.Items?
      ensures r[i].1.items != []
    {
      if HasKey(m, k) {
        assert r == m[IndexOf(m, k) := (k, v)];
      } else {
        assert r == m + [(k, v)];
        if i < |m| {
          assert r[i] == m[i];
        }
      }
    }
  }

  /** The body of the `for` loop for one line. */
  function Step(st: State, line: string): (r: State)
  {
    var stripped := Strip(line);
    if stripped == "" || StartsWith(stripped, "#") then st
    else if StartsWith(stripped, "- ") then
      if st.listKey != "" then st.(items := st.items + [Clean(stripped[2..])]) else st
    else
      var f := Flush(st);
      if ':' in stripped then
        var key := Strip(Before(stripped, ':'));
        var value := Clean(After(stripped, ':'));
        if value == "" then f.(listKey := key, items := [])
        else f.(result := Put(f.result, key, Scalar(value)))
      else f
  }

  /** Every step keeps the result consistent. */
  lemma StepGood(st: State, line: string)
    requires Good(st)
    ensures Good(Step(st, line))
  {
    var t := Strip(line);
    if t != "" && !StartsWith(t, "#") && !StartsWith(t, "- ") {
      var f := Flush(st);
      assert Good(f);
      if ':' in t {
        var key, value := Strip(Before(t, ':')), Clean(After(t, ':'));
        if value != "" {
          PutValuesOk(f.result, key, Scalar(value));
          assert Step(st, line) == f.(result := Put(f.result, key, Scalar(value)));
        } else {
          assert Step(st, line) == f.(listKey := key, items := []);
        }
      }
    }
  }

  /** The state after the first `n` lines. */
  function Scan(lines: seq<string>, n: nat): (r: State)
    requires n <= |lines|
    ensures Good(r)
    decreases n
  {
    if n == 0 then Start
    else
      StepGood(Scan(lines, n - 1), lines[n - 1]);
      Step(Scan(lines, n - 1), lines[n - 1])
  }

  /** The dict `parse_yaml_simple` returns. */
  function Rubric(content: string): (r: Entries<RubricValue>)
    ensures ValuesOk(r) && UniqueKeys(r)
  {
    var lines := SplitOn(content, '\n');
    Flush(Scan(lines, |lines|)).result
  }

  /** `parse_yaml_simple`: the loop over the lines, then the final save of an open list. */
  method ParseYamlSimple(content: string) returns (result: Entries<RubricValue>)
    ensures result == Rubric(content)
    ensures ValuesOk(result) && UniqueKeys(result)
  {
    var lines := SplitOn(content, '\n');
    result := [];
    var listKey := "";
    var items: seq<string> := [];
    for n := 0 to |lines|
      invariant State(result, listKey, items) == Scan(lines, n)
    {
      var stripped := Strip(lines[n]);
      if stripped == "" || StartsWith(stripped, "#") {
        continue;
      }
      if StartsWith(stripped, "- ") {
        if listKey != "" {
          items := items + [Clean(stripped[2..])];
        }
        continue;
      }
      if listKey != "" && items != [] {
        result := Put(result, listKey, Items(items));
        items := [];
        listKey := "";
      }
      if ':' in stripped {
        var key := Strip(Before(stripped, ':'));
        var value := Clean(After(stripped, ':'));
        if value == "" {
          listKey := key;
          items := [];
        } else {
          result := Put(result, key, Scalar(value));
        }
      }
    }
    if listKey != "" && items != [] {
      result := Put(result, listKey, Items(items));
    }
  }

  /** Blank lines and comment lines leave the state as it was. */
  lemma SkippedLine(st: State, line: string)
    requires Strip(line) == "" || StartsWith(Strip(line), "#")
    ensures Step(st, line) == st
  {
  }

  /** A `- x` line adds the cleaned `x` to the open list, and is discarded when no list is open. */
  lemma ItemLine(st: State, line: string)
    requires StartsWith(Strip(line), "- ")
    ensures st.listKey != "" ==> Step(st, line) == st.(items := st.items + [Clean(Strip(line)[2..])])
    ensures st.listKey == "" ==> Step(st, line) == st
  {
    var t := Strip(line);
    assert t[0] == '-' by { assert t[..2][0] == t[0]; }
    NotComment(t);
  }

  /** A stripped line that starts with `-` is neither blank nor a comment. */
  lemma NotComment(t: string)
    requires |t| > 0 && t[0] == '-'
    ensures t != "" && !StartsWith(t, "#")
  {
    assert t[..1] == [t[0]];
  }

  /** A `key: value` line with a value left after cleaning stores that text under
      the key before the first `:`, after saving a non-empty open list. */
  lemma ValueLine(st: State, line: string)
    requires var t := Strip(line);
      t != "" && !StartsWith(t, "#") && !StartsWith(t, "- ") && ':' in t && Clean(After(t, ':')) != ""
    ensures var t := Strip(line); var r := Step(st, line);
      && HasKey(r.result, Strip(Before(t, ':')))
      && Get(r.result, Strip(Before(t, ':'))) == Scalar(Clean(After(t, ':')))
      && r.result == Put(Flush(st).result, Strip(Before(t, ':')), Scalar(Clean(After(t, ':'))))
  {
  }

  /** A `key:` line with nothing after it opens an empty list for that key. */
  lemma OpensList(st: State, line: string)
    requires var t := Strip(line);
      t != "" && !StartsWith(t, "#") && !StartsWith(t, "- ") && ':' in t && Clean(After(t, ':')) == ""
    ensures var r := Step(st, line);
      r.listKey == Strip(Before(Strip(line), ':')) && r.items == [] && r.result == Flush(st).result
  {
  }

  /** A list that has no item yet is never written, and stays open across a
      `key: value` line, so `- x` lines after that line still go into it. */
  lemma EmptyListStaysOpen(st: State, line: string)
    requires st.listKey != "" && st.items == []
    requires var t := Strip(line);
      t != "" && !StartsWith(t, "#") && !StartsWith(t, "- ") && ':' in t && Clean(After(t, ':')) != ""
    ensures Step(st, line).listKey == st.listKey && Step(st, line).items == []
  {
  }

  /** Any other line saves a non-empty open list and closes it. */
  lemma FlushedBeforeOtherLine(st: State, line: string)
    requires var t := Strip(line); t != "" && !StartsWith(t, "#") && !StartsWith(t, "- ")
    requires st.listKey != "" && st.items != []
    ensures var r := Step(st, line);
      HasKey(r.result, st.listKey) || (':' in Strip(line) && Strip(Before(Strip(line), ':')) == st.listKey)
    ensures ':' !in Strip(line) ==> Step(st, line) == State(Put(st.result, st.listKey, Items(st.items)), "", [])
  {
  }

  /** A document made of a `key:` line and item lines yields that one list. */
  lemma KeyWithItems(key: string, xs: seq<string>)
    requires key != "" && Strip(key) == key && ':' !in key && '\n' !in key && key[0] != '#' && key[0] != '-'
    requires xs != []
    requires forall i :: 0 <= i < |xs| ==> PlainItem(xs[i])
    ensures Rubric(JoinWith([key + ":"] + ItemLines(xs), '\n')) == [(key, Items(xs))]
  {
    var lines := [key + ":"] + ItemLines(xs);
    var content := JoinWith(lines, '\n');
    DocumentSplits(key, xs);
    DocumentScans(key, xs);
    RubricOfLines(content, lines, State([], key, xs));
  }

  /** The rubric of a text whose lines are `lines` and scan to `st`. */
  lemma RubricOfLines(content: string, lines: seq<string>, st: State)
    requires SplitOn(content, '\n') == lines && Scan(lines, |lines|) == st
    ensures Rubric(content) == Flush(st).result
  {
  }

  /** Joining the document's lines and splitting again gives the lines back. */
  lemma DocumentSplits(key: string, xs: seq<string>)
    requires '\n' !in key
    requires forall i :: 0 <= i < |xs| ==> PlainItem(xs[i])
    ensures SplitOn(JoinWith([key + ":"] + ItemLines(xs), '\n'), '\n') == [key + ":"] + ItemLines(xs)
  {
    assert forall i :: 0 <= i < |xs| ==> '\n' !in xs[i] by {
      forall i | 0 <= i < |xs| ensures '\n' !in xs[i] {
        assert PlainItem(xs[i]);
      }
    }
    DocumentLines(key, xs);
    SplitJoin([key + ":"] + ItemLines(xs), '\n');
  }

  /** Scanning the document's lines leaves the list of `xs` open under `key`. */
  lemma DocumentScans(key: string, xs: seq<string>)
    requires key != "" && Strip(key) == key && ':' !in key && key[0] != '#' && key[0] != '-'
    requires forall i :: 0 <= i < |xs| ==> PlainItem(xs[i])
    ensures var lines := [key + ":"] + ItemLines(xs);
      Scan(lines, |lines|) == State([], key, xs)
  {
    var lines := [key + ":"] + ItemLines(xs);
    FirstLineOpens(lines, key);
    DocumentItems(key, xs);
    ItemsScanned(lines, key, xs, |xs|);
    assert xs[..|xs|] == xs;
  }

  lemma FirstLineOpens(lines: seq<string>, key: string)
    requires key != "" && Strip(key) == key && ':' !in key && key[0] != '#' && key[0] != '-'
    requires |lines| > 0 && lines[0] == key + ":"
    ensures Scan(lines, 1) == State([], key, [])
  {
    ScanNext(lines, 0);
    KeyLineOpens(key);
  }

  lemma ScanNext(lines: seq<string>, n: nat)
    requires n < |lines|
    ensures Scan(lines, n + 1) == Step(Scan(lines, n), lines[n])
  {
  }

  lemma DocumentLines(key: string, xs: seq<string>)
    requires '\n' !in key
    requires forall i :: 0 <= i < |xs| ==> '\n' !in xs[i]
    ensures var lines := [key + ":"] + ItemLines(xs);
      forall i :: 0 <= i < |lines| ==> '\n' !in lines[i]
  {
    var lines := [key + ":"] + ItemLines(xs);
    forall i | 0 <= i < |lines| ensures '\n' !in lines[i] {
      if i > 0 {
        assert lines[i] == "- " + xs[i - 1];
      }
    }
  }

  lemma DocumentItems(key: string, xs: seq<string>)
    requires forall i :: 0 <= i < |xs| ==> PlainItem(xs[i])
    ensures var lines := [key + ":"] + ItemLines(xs);
      forall i :: 0 <= i < |xs| ==> ItemAt(lines, xs, i)
  {
    var lines := [key + ":"] + ItemLines(xs);
    forall i | 0 <= i < |xs| ensures ItemAt(lines, xs, i) {
      assert PlainItem(xs[i]);
    }
  }

  /** An item text that cleaning leaves unchanged, on one line. */
  predicate PlainItem(x: string)
  {
    Clean(x) == x && x != "" && '\n' !in x
  }

  function ItemLines(xs: seq<string>): (r: seq<string>)
    ensures |r| == |xs| && forall i :: 0 <= i < |xs| ==> r[i] == "- " + xs[i]
  {
    seq(|xs|, i requires 0 <= i < |xs| => "- " + xs[i])
  }

  /** The line `key:` opens a list for `key`. */
  lemma KeyLineOpens(key: string)
    requires key != "" && Strip(key) == key && ':' !in key && key[0] != '#' && key[0] != '-'
    ensures Step(Start, key + ":") == State([], key, [])
  {
    KeyLineParts(key);
    assert Flush(Start) == Start;
  }

  /** How `key:` reads: already stripped, neither comment nor item, and split at its `:`. */
  lemma KeyLineParts(key: string)
    requires key != "" && Strip(key) == key && ':' !in key && key[0] != '#' && key[0] != '-'
    ensures var t := key + ":";
      Strip(t) == t && t != "" && !StartsWith(t, "#") && !StartsWith(t, "- ") && ':' in t
      && Strip(Before(t, ':')) == key && Clean(After(t, ':')) == ""
  {
    var t := key + ":";
    assert Strip(t) == t by {
      assert t[0] == key[0] && t[|t| - 1] == ':';
      StripTrimmed(t);
    }
    assert t != "" && !StartsWith(t, "#") && !StartsWith(t, "- ") by { assert t[..1] == [key[0]]; }
    SplitAtLast(key, ':');
    assert Clean("") == "";
  }

  /** Each item line adds its text to the list `key:` opened. */
  lemma {:induction false} ItemsScanned(lines: seq<string>, key: string, xs: seq<string>, n: nat)
    requires key != "" && n <= |xs| && |lines| == |xs| + 1
    requires Scan(lines, 1) == State([], key, [])
    requires forall i :: 0 <= i < |xs| ==> ItemAt(lines, xs, i)
    ensures Scan(lines, n + 1) == State([], key, xs[..n])
    decreases n
  {
    if n > 0 {
      ItemsScanned(lines, key, xs, n - 1);
      ScanItem(lines, key, xs, n);
    }
  }

  lemma ScanItem(lines: seq<string>, key: string, xs: seq<string>, n: nat)
    requires key != "" && 0 < n <= |xs| && |lines| == |xs| + 1
    requires Scan(lines, n) == State([], key, xs[..n - 1]) && ItemAt(lines, xs, n - 1)
    ensures Scan(lines, n + 1) == State([], key, xs[..n])
  {
    ScanNext(lines, n);
    ItemNext(Scan(lines, n), lines[n], key, xs[..n - 1], xs[n - 1]);
    TakeSnoc(xs, n - 1);
  }

  /** `ItemStep` for a list state given by its parts. */
  lemma ItemNext(st: State, line: string, key: string, prev: seq<string>, x: string)
    requires key != "" && st == State([], key, prev)
    requires line == "- " + x && Clean(x) == x && x != ""
    ensures Step(st, line) == State([], key, prev + [x])
  {
    ItemStep(st, x);
  }

  /** Line `i + 1` is the item line of `xs[i]`, and cleaning leaves `xs[i]` as it is. */
  predicate ItemAt(lines: seq<string>, xs: seq<string>, i: nat)
    requires i < |xs| && |lines| == |xs| + 1
  {
    lines[i + 1] == "- " + xs[i] && Clean(xs[i]) == xs[i] && xs[i] != ""
  }

  /** The line `- x` adds `x` to the open list when cleaning leaves `x` as it is. */
  lemma ItemStep(st: State, x: string)
    requires st.listKey != "" && Clean(x) == x && x != ""
    ensures Step(st, "- " + x) == st.(items := st.items + [x])
  {
    var line := "- " + x;
    CleanFixed(x);
    assert Strip(line) == line by {
      assert line[0] == '-' && line[|line| - 1] == x[|x| - 1];
      StripTrimmed(line);
    }
    assert StartsWith(line, "- ") by { assert line[..2] == "- "; }
    assert line[2..] == x;
  }

  /** A text that cleaning leaves unchanged has no surrounding white space. */
  lemma CleanFixed(x: string)
    requires Clean(x) == x
    ensures Strip(x) == x
    ensures x == [] || !IsSpace(x[|x| - 1])
  {
    var l := StripLeft(x);
    assert |Strip(x)| == |x|;
    assert l == x;
  }
}
