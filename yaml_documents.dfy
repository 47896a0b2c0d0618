/** Whole documents read by `_parse_nested`: how its lines read, and two
    documents carried line by line through the loop to the tree it returns. */
module YamlDocuments {
  import opened Common
  import opened Text
  import opened Assoc
  import opened Values
  import opened Numerals
  import opened YamlScalar
  import opened YamlLines
  import opened YamlStack
  import opened YamlParser

  function Spaces(n: nat): (r: string)
    ensures |r| == n && forall j :: 0 <= j < n ==> r[j] == ' '
  {
    if n == 0 then "" else " " + Spaces(n - 1)
  }

  /** Text with no white space at either end and no `#`. */
  predicate Bare(t: string)
  {
    t != "" && !IsSpace(t[0]) && !IsSpace(t[|t| - 1]) && '#' !in t
  }

  /** A key as it is written before its `:`. */
  predicate PlainKey(key: string)
  {
    Bare(key) && ':' !in key && key[0] != '-'
  }

  /** A line of bare text indented by `n` spaces has indent `n`, has no comment,
      and is judged by that text. */
  lemma IndentedLine(n: nat, t: string)
    requires Bare(t)
    ensures var line := Spaces(n) + t;
      && IndentLevel(line) == n
      && Strip(line) == t
      && Content(line) == t
      && !Skipped(line)
      && Substantive(line)
  {
    var line := Spaces(n) + t;
    IndentedLevel(n, t);
    IndentedStrip(n, t);
    IndentedNoHash(n, t);
    NoHashKept(line);
    assert t[0] != '#';
    assert !StartsWith(t, "#") by { assert t[..1] == [t[0]]; }
  }

  lemma IndentedLevel(n: nat, t: string)
    requires Bare(t)
    ensures IndentLevel(Spaces(n) + t) == n
  {
    var line := Spaces(n) + t;
    assert line[n] == t[0] && t[0] != ' ';
    var k := IndentLevel(line);
    assert k <= n;
  }

  lemma IndentedStrip(n: nat, t: string)
    requires Bare(t)
    ensures Strip(Spaces(n) + t) == t
  {
    var line := Spaces(n) + t;
    assert line[n] == t[0];
    var l := StripLeft(line);
    assert |line| - |l| <= n;
    assert |line| - |l| >= n;
    assert l == line[n..] == t;
    assert StripRight(t) == t;
  }

  lemma IndentedNoHash(n: nat, t: string)
    requires Bare(t)
    ensures '#' !in Spaces(n) + t
  {
    var line := Spaces(n) + t;
    forall j | 0 <= j < |line|
      ensures line[j] != '#'
    {
      if j >= n {
        assert line[j] == t[j - n];
      }
    }
  }

  /** `key:` reads as a key with nothing after its colon. */
  lemma OpenLine(key: string)
    requires PlainKey(key)
    ensures var t := key + ":";
      && Bare(t) && !StartsWith(t, "- ") && ':' in t
      && Strip(Before(t, ':')) == key && Strip(After(t, ':')) == ""
  {
    var t := key + ":";
    assert t[0] == key[0] && t[|t| - 1] == ':';
    assert t[..1] == [key[0]];
    assert '#' !in t by { assert forall j :: 0 <= j < |key| ==> t[j] == key[j]; }
    SplitAtLast(key, ':');
    StripTrimmed(key);
  }

  /** `key: v` reads as the key and the value text `v`. */
  lemma ValueLine(key: string, v: string)
    requires PlainKey(key) && Bare(v)
    ensures var t := key + ": " + v;
      && Bare(t) && !StartsWith(t, "- ") && ':' in t
      && Strip(Before(t, ':')) == key && Strip(After(t, ':')) == v
  {
    var t := key + ": " + v;
    ValueLineBare(key, v);
    ValueLineParts(key, v);
    StripTrimmed(key);
    IndentedStrip(1, v);
  }

  lemma ValueLineBare(key: string, v: string)
    requires PlainKey(key) && Bare(v)
    ensures var t := key + ": " + v;
      Bare(t) && !StartsWith(t, "- ") && ':' in t
  {
    var t := key + ": " + v;
    assert t[0] == key[0] && t[|t| - 1] == v[|v| - 1] && t[|key|] == ':';
    assert t[..1] == [key[0]];
    forall j | 0 <= j < |t|
      ensures t[j] != '#'
    {
      if j < |key| {
        assert t[j] == key[j];
      } else if j >= |key| + 2 {
        assert t[j] == v[j - |key| - 2];
      }
    }
  }

  lemma ValueLineParts(key: string, v: string)
    requires PlainKey(key) && Bare(v)
    ensures ':' in key + ": " + v
    ensures Before(key + ": " + v, ':') == key && After(key + ": " + v, ':') == Spaces(1) + v
  {
    var t := key + ": " + v;
    assert t[|key|] == ':';
    assert forall j :: 0 <= j < |key| ==> t[j] == key[j];
    FindFirst(t, ':', |key|);
    assert t[..|key|] == key;
    assert t[|key| + 1..] == " " + v;
  }

  /** `- item` reads as a list item holding `item`. */
  lemma ItemLine(item: string)
    requires Bare(item)
    ensures var t := "- " + item;
      && Bare(t) && StartsWith(t, "- ") && Strip(t[2..]) == item
  {
    var t := "- " + item;
    assert t[..2] == "- " && t[2..] == item;
    assert t[|t| - 1] == item[|item| - 1];
    assert '#' !in t by {
      forall j | 0 <= j < |t|
        ensures t[j] != '#'
      {
        if j >= 2 {
          assert t[j] == item[j - 2];
        }
      }
    }
    StripTrimmed(item);
  }

  /** Text that is already stripped, unquoted, no special word and no number is
      read as itself. */
  lemma PlainScalar(t: string)
    requires Strip(t) == t && !IsDoubleQuoted(t) && !IsSingleQuoted(t)
    requires Lower(t) !in TrueWords && Lower(t) !in FalseWords && Lower(t) !in NullWords
    requires !IsIntLiteral(t) && !IsFloatLiteral(t)
    ensures ParseScalar(t) == Str(t)
  {
  }

  /** A lower-case letter on its own is read as a string. */
  lemma LetterScalar(t: string)
    requires |t| == 1 && 'a' <= t[0] <= 'z'
    ensures ParseScalar(t) == Str(t)
  {
    assert t == [t[0]];
    assert Strip(t) == t by { StripTrimmed(t); }
    assert !IsDoubleQuoted(t) && !IsSingleQuoted(t) by { LetterUnquoted(t[0]); }
    assert Lower(t) !in TrueWords && Lower(t) !in FalseWords && Lower(t) !in NullWords by { LetterIsNoWord(t[0]); }
    assert !IsIntLiteral(t) && !IsFloatLiteral(t) by { LetterIsNoNumber(t[0]); }
    PlainScalar(t);
  }

  lemma LetterUnquoted(c: char)
    requires 'a' <= c <= 'z'
    ensures !IsDoubleQuoted([c]) && !IsSingleQuoted([c])
  {
    assert [c][..1] == [c];
  }

  lemma LetterIsNoWord(c: char)
    requires 'a' <= c <= 'z'
    ensures Lower([c]) !in TrueWords && Lower([c]) !in FalseWords && Lower([c]) !in NullWords
  {
    assert Lower([c]) == [c];
  }

  lemma LetterIsNoNumber(c: char)
    requires 'a' <= c <= 'z'
    ensures !IsIntLiteral([c]) && !IsFloatLiteral([c])
  {
  }

  /** A digit on its own is read as that integer. */
  lemma DigitScalar(d: nat)
    requires d < 10
    ensures ParseScalar([DigitChar(d)]) == Int(d)
  {
    assert Show(d) == [DigitChar(d)];
    IntScalarRoundTrip(d);
  }

  /** One line of bare text `t` at indent `n`: pop to the indent, then dispatch `t`. */
  lemma StepAt(lines: seq<string>, i: nat, st: Stack, n: nat, t: string)
    requires i < |lines| && WellFormed(st) && lines[i] == Spaces(n) + t && Bare(t)
    ensures Innermost(PopWhile(st, n)).indent < n
    ensures Step(lines, i, st) == Dispatch(lines, i, PopWhile(st, n), n, t)
  {
    IndentedLine(n, t);
    StepDispatches(lines, i, st);
  }

  /** The line `key:` at indent `n` opens `child` under the key in the dict it pops to. */
  lemma OpenStep(lines: seq<string>, i: nat, st: Stack, n: nat, key: string, child: Value)
    requires i < |lines| && WellFormed(st) && lines[i] == Spaces(n) + (key + ":") && PlainKey(key)
    requires Innermost(PopWhile(st, n)).node.Map?
    requires child == (if NextIsListItem(lines, i + 1) then List([]) else Map([]))
    ensures Innermost(PopWhile(st, n)).indent < n
    ensures Step(lines, i, st) == Next(i + 1, Open(PopWhile(st, n), key, child, n))
  {
    var t := key + ":";
    var p := PopWhile(st, n);
    assert Bare(t) && !StartsWith(t, "- ") && ':' in t by { OpenLine(key); }
    assert Innermost(p).indent < n && Step(lines, i, st) == Dispatch(lines, i, p, n, t) by {
      StepAt(lines, i, st, n, t);
    }
    assert Dispatch(lines, i, p, n, t) == Next(i + 1, Open(p, key, child, n)) by {
      DispatchKey(lines, i, p, n, t);
      OpenLine(key);
      KeyLineOpenAt(lines, i, p, n, t, key, child);
    }
  }

  lemma KeyLineOpenAt(lines: seq<string>, i: nat, st: Stack, n: int, t: string, key: string, child: Value)
    requires i < |lines| && WellFormed(st) && Innermost(st).indent < n && ':' in t
    requires Innermost(st).node.Map? && Strip(Before(t, ':')) == key && Strip(After(t, ':')) == ""
    requires child == (if NextIsListItem(lines, i + 1) then List([]) else Map([]))
    ensures KeyLine(lines, i, st, n, t) == Next(i + 1, Open(st, key, child, n))
  {
  }

  /** The line `key: v` at indent `n`, with `v` a plain scalar, stores it under the key. */
  lemma ScalarStep(lines: seq<string>, i: nat, st: Stack, n: nat, key: string, v: string)
    requires i < |lines| && WellFormed(st) && lines[i] == Spaces(n) + (key + ": " + v)
    requires PlainKey(key) && Bare(v) && v[0] != '{' && v[0] != '[' && v != "|" && v != ">"
    requires Innermost(PopWhile(st, n)).node.Map?
    ensures Innermost(PopWhile(st, n)).indent < n
    ensures Step(lines, i, st) == Next(i + 1, SetKey(PopWhile(st, n), key, ParseScalar(v)))
  {
    var t := key + ": " + v;
    var p := PopWhile(st, n);
    assert Bare(t) && !StartsWith(t, "- ") && ':' in t by { ValueLine(key, v); }
    assert Innermost(p).indent < n && Step(lines, i, st) == Dispatch(lines, i, p, n, t) by {
      StepAt(lines, i, st, n, t);
    }
    assert Dispatch(lines, i, p, n, t) == Next(i + 1, SetKey(p, key, ParseScalar(v))) by {
      DispatchKey(lines, i, p, n, t);
      ValueLine(key, v);
      ScalarValueAt(lines, i, n, v);
      KeyLineStores(lines, i, p, n, t);
    }
  }

  /** A value text that is no block marker and opens no flow value is a scalar. */
  lemma ScalarValueAt(lines: seq<string>, i: nat, n: int, v: string)
    requires i < |lines| && v != "" && v[0] != '{' && v[0] != '[' && v != "|" && v != ">"
    ensures KeyValue(lines, i, n, v) == (ParseScalar(v), i + 1)
  {
    assert !StartsWith(v, "{") && !StartsWith(v, "[") by { assert v[..1] == [v[0]]; }
  }

  /** The line `- item` at indent `n` is handled by `ListItem` on the stack it pops to. */
  lemma ItemStepAt(lines: seq<string>, i: nat, st: Stack, n: nat, item: string)
    requires i < |lines| && WellFormed(st) && lines[i] == Spaces(n) + ("- " + item) && Bare(item)
    ensures Innermost(PopWhile(st, n)).indent < n
    ensures Step(lines, i, st) == Next(i + 1, ListItem(PopWhile(st, n), n, item))
  {
    var t := "- " + item;
    var p := PopWhile(st, n);
    assert Bare(t) && StartsWith(t, "- ") && Strip(t[2..]) == item by { ItemLine(item); }
    assert Innermost(p).indent < n && Step(lines, i, st) == Dispatch(lines, i, p, n, t) by {
      StepAt(lines, i, st, n, t);
    }
    DispatchItem(lines, i, p, n, t);
  }

  /** A line of bare text `t` is the next substantive line when it is the very
      next line, so whether it is a `- ` item decides what `key:` opens. */
  lemma NextLineDecides(lines: seq<string>, i: nat, n: nat, t: string)
    requires i < |lines| && lines[i] == Spaces(n) + t && Bare(t)
    ensures NextIsListItem(lines, i) == StartsWith(t, "- ")
  {
    IndentedLine(n, t);
  }

  /** Nothing is popped when the innermost frame sits left of the line. */
  lemma NoPop(st: Stack, n: int)
    requires WellFormed(st) && Innermost(st).indent < n
    ensures PopWhile(st, n) == st
  {
  }

  /** A line back at the indent of the second frame pops that frame and no other. */
  lemma PopOne(st: Stack, n: int)
    requires WellFormed(st) && |st| == 2 && Innermost(st).indent >= n
    ensures PopWhile(st, n) == Pop(st) && |Pop(st)| == 1
  {
  }

  /** `SetKey` rewrites the innermost dict and leaves the frames below it. */
  lemma SetKeyTop(st: Stack, key: string, v: Value)
    requires WellFormed(st) && Innermost(st).node.Map? && WellKeyed(v)
    ensures SetKey(st, key, v) == st[..|st| - 1] + [Innermost(st).(node := Map(Put(Innermost(st).node.entries, key, v)))]
  {
    var r := SetKey(st, key, v);
    assert r == r[..|r| - 1] + [Innermost(r)];
  }

  /** `Append` rewrites the innermost list and leaves the frames below it. */
  lemma AppendTop(st: Stack, v: Value)
    requires WellFormed(st) && Innermost(st).node.List? && WellKeyed(v)
    ensures Append(st, v) == st[..|st| - 1] + [Innermost(st).(node := List(Innermost(st).node.items + [v]))]
  {
    var r := Append(st, v);
    assert r == r[..|r| - 1] + [Innermost(r)];
  }

  /** On a one-frame stack, `key:` adds the key to the root and pushes the new container. */
  lemma OpenAtRoot(st: Stack, key: string, child: Value, n: nat)
    requires WellFormed(st) && |st| == 1 && !HasKey(st[0].node.entries, key)
    requires child == List([]) || child == Map([])
    ensures Open(st, key, child, n) == [Frame(-1, Map(st[0].node.entries + [(key, child)]), Root), Frame(n, child, AtKey(key))]
  {
    SetKeyRoot(st, key, child);
  }

  /** A line back at indent 0 under a top-level key writes the open container
      back into the root. */
  lemma PopToRootFrame(st: Stack, m: Entries<Value>, key: string, x: Value)
    requires WellFormed(st) && st == [Frame(-1, Map(m), Root), Frame(0, x, AtKey(key))]
    ensures PopWhile(st, 0) == [Frame(-1, Map(Put(m, key, x)), Root)]
  {
    PopOne(st, 0);
  }

  /** `key:` at indent 0 opens `child` in the root the stack pops to. */
  lemma TopOpenAt(ls: seq<string>, i: nat, st: Stack, top: Stack, key: string, child: Value)
    requires i < |ls| && ls[i] == key + ":" && PlainKey(key)
    requires WellFormed(st) && PopWhile(st, 0) == top && Innermost(top).node.Map?
    requires child == (if NextIsListItem(ls, i + 1) then List([]) else Map([]))
    ensures Step(ls, i, st) == Next(i + 1, Open(top, key, child, 0))
  {
    assert ls[i] == Spaces(0) + (key + ":");
    OpenStep(ls, i, st, 0, key, child);
  }

  /** `key:` at indent 0, followed by the bare text `t` at indent `m`, on a stack
      that pops to the root: the key is added to the root, holding a list when
      `t` is a `- ` item and a dict otherwise, and that container is opened. */
  lemma TopOpenStep(ls: seq<string>, i: nat, st: Stack, m: Entries<Value>, key: string, n: nat, t: string, child: Value)
    requires i + 1 < |ls| && ls[i] == key + ":" && PlainKey(key)
    requires ls[i + 1] == Spaces(n) + t && Bare(t)
    requires child == (if StartsWith(t, "- ") then List([]) else Map([]))
    requires WellFormed(st) && PopWhile(st, 0) == [Frame(-1, Map(m), Root)] && !HasKey(m, key)
    ensures Step(ls, i, st) == Next(i + 1, [Frame(-1, Map(m + [(key, child)]), Root), Frame(0, child, AtKey(key))])
  {
    NextLineDecides(ls, i + 1, n, t);
    TopOpenAt(ls, i, st, [Frame(-1, Map(m), Root)], key, child);
    OpenAtRoot([Frame(-1, Map(m), Root)], key, child, 0);
  }

  /** `key: v` indented past the innermost dict stores the scalar in it. */
  lemma KeyValueStep(ls: seq<string>, i: nat, st: Stack, pre: Stack, f: Frame, n: nat, key: string, v: string)
    requires i < |ls| && ls[i] == Spaces(n) + (key + ": " + v)
    requires PlainKey(key) && Bare(v) && v[0] != '{' && v[0] != '[' && v != "|" && v != ">"
    requires WellFormed(st) && st == pre + [f] && f.node.Map? && f.indent < n
    ensures Step(ls, i, st) == Next(i + 1, pre + [f.(node := Map(Put(f.node.entries, key, ParseScalar(v))))])
  {
    ScalarWellKeyed(ParseScalar(v));
    assert Step(ls, i, st) == Next(i + 1, SetKey(st, key, ParseScalar(v))) by {
      NoPop(st, n);
      ScalarStep(ls, i, st, n, key, v);
    }
    assert SetKey(st, key, ParseScalar(v)) == pre + [f.(node := Map(Put(f.node.entries, key, ParseScalar(v))))] by {
      assert st[..|st| - 1] == pre;
      SetKeyTop(st, key, ParseScalar(v));
    }
  }

  /** A list item without a colon is appended to the open list as a scalar. */
  lemma PlainItem(st: Stack, n: int, item: string)
    requires WellFormed(st) && Innermost(st).indent < n && Innermost(st).node.List? && ':' !in item
    ensures ListItem(st, n, item) == st[..|st| - 1] + [Innermost(st).(node := List(Innermost(st).node.items + [ParseScalar(item)]))]
  {
    ScalarWellKeyed(ParseScalar(item));
    AppendTop(st, ParseScalar(item));
  }

  /** `- item` indented past the innermost list, with no colon in the item,
      appends the scalar to it. */
  lemma PlainItemStep(ls: seq<string>, i: nat, st: Stack, pre: Stack, f: Frame, n: nat, item: string)
    requires i < |ls| && ls[i] == Spaces(n) + ("- " + item) && Bare(item) && ':' !in item
    requires WellFormed(st) && st == pre + [f] && f.node.List? && f.indent < n
    ensures Step(ls, i, st) == Next(i + 1, pre + [f.(node := List(f.node.items + [ParseScalar(item)]))])
  {
    assert Step(ls, i, st) == Next(i + 1, ListItem(st, n, item)) by {
      NoPop(st, n);
      ItemStepAt(ls, i, st, n, item);
    }
    assert ListItem(st, n, item) == pre + [f.(node := List(f.node.items + [ParseScalar(item)]))] by {
      assert st[..|st| - 1] == pre;
      PlainItem(st, n, item);
    }
  }

  /** The item `key: v` is bare, unquoted, and splits at its colon into the key and `v`. */
  lemma DictItemText(key: string, v: string)
    requires PlainKey(key) && key[0] != '"' && key[0] != '\'' && Bare(v)
    ensures var item := key + ": " + v;
      && Bare(item) && ':' in item && !IsDoubleQuoted(item) && !IsSingleQuoted(item)
      && Strip(Before(item, ':')) == key && Strip(After(item, ':')) == v
  {
    ValueLine(key, v);
    ItemUnquoted(key, v);
  }

  /** Text that starts with a key starting with neither quote is not quoted. */
  lemma ItemUnquoted(key: string, v: string)
    requires |key| > 0 && key[0] != '"' && key[0] != '\''
    ensures !IsDoubleQuoted(key + ": " + v) && !IsSingleQuoted(key + ": " + v)
  {
    var item := key + ": " + v;
    assert item[0] == key[0];
    assert item[..1] == [key[0]];
  }

  /** Under a list, the item `key: v` appends a one-entry dict and opens it. */
  lemma DictItemList(st: Stack, n: int, key: string, v: string)
    requires WellFormed(st) && Innermost(st).indent < n && Innermost(st).node.List?
    requires PlainKey(key) && key[0] != '"' && key[0] != '\'' && Bare(v)
    ensures var d := Map([(key, ParseScalar(v))]);
      WellKeyed(d) && ListItem(st, n, key + ": " + v) == Push(Append(st, d), Frame(n, d, AtLast))
  {
    DictItemText(key, v);
    assert ItemDict(key + ": " + v) == Map([(key, ParseScalar(v))]);
  }

  /** The line `- key: v` indented past the innermost frame is that item under it. */
  lemma DictItemAt(ls: seq<string>, i: nat, st: Stack, n: nat, key: string, v: string)
    requires i < |ls| && ls[i] == Spaces(n) + ("- " + (key + ": " + v))
    requires PlainKey(key) && Bare(v) && WellFormed(st) && Innermost(st).indent < n
    ensures Step(ls, i, st) == Next(i + 1, ListItem(st, n, key + ": " + v))
  {
    ValueLineBare(key, v);
    NoPop(st, n);
    ItemStepAt(ls, i, st, n, key + ": " + v);
  }

  /** Appending to the innermost list of `pre + [f]`. */
  lemma AppendAfter(st: Stack, pre: Stack, f: Frame, v: Value)
    requires WellFormed(st) && st == pre + [f] && f.node.List? && WellKeyed(v)
    ensures Append(st, v) == pre + [f.(node := List(f.node.items + [v]))]
  {
    assert st[..|st| - 1] == pre;
    AppendTop(st, v);
  }

  lemma SnocSnoc<T>(pre: seq<T>, a: T, b: T)
    ensures pre + [a] + [b] == pre + [a, b]
  {
  }

  /** The stack after the item `key: v`: the dict appended, then opened. */
  lemma DictItemShape(st: Stack, pre: Stack, f: Frame, n: nat, key: string, v: string)
    requires PlainKey(key) && key[0] != '"' && key[0] != '\'' && Bare(v)
    requires WellFormed(st) && st == pre + [f] && f.node.List? && f.indent < n
    ensures var d := Map([(key, ParseScalar(v))]);
      ListItem(st, n, key + ": " + v) == pre + [f.(node := List(f.node.items + [d])), Frame(n, d, AtLast)]
  {
    var d := Map([(key, ParseScalar(v))]);
    DictItemList(st, n, key, v);
    AppendAfter(st, pre, f, d);
    SnocSnoc(pre, f.(node := List(f.node.items + [d])), Frame(n, d, AtLast));
  }

  /** `- key: v` indented past the innermost list appends a one-entry dict to it
      and opens that dict at the item's indent. */
  lemma DictItemStep(ls: seq<string>, i: nat, st: Stack, pre: Stack, f: Frame, n: nat, key: string, v: string)
    requires i < |ls| && ls[i] == Spaces(n) + ("- " + (key + ": " + v))
    requires PlainKey(key) && key[0] != '"' && key[0] != '\'' && Bare(v)
    requires WellFormed(st) && st == pre + [f] && f.node.List? && f.indent < n
    ensures var d := Map([(key, ParseScalar(v))]);
      Step(ls, i, st) == Next(i + 1, pre + [f.(node := List(f.node.items + [d])), Frame(n, d, AtLast)])
  {
    DictItemAt(ls, i, st, n, key, v);
    DictItemShape(st, pre, f, n, key, v);
  }

  /** A line that moves on to the next line with stack `st'` hands the rest of
      the loop over to `st'`. */
  lemma RunLink(ls: seq<string>, i: nat, st: Stack, st': Stack)
    requires i < |ls| && WellFormed(st) && Step(ls, i, st) == Next(i + 1, st')
    ensures WellFormed(st') && Run(ls, i, st) == Run(ls, i + 1, st')
  {
    RunStep(ls, i, st);
  }

  // A dict and then a list at the top level:
  //
  //     parent:
  //       child: v
  //     list_parent:
  //       - a
  //       - b

  /** The lines of that document. */
  function NestedLines(p: string, c: string, v: string, q: string, a: string, b: string): seq<string>
  {
    [p + ":", Spaces(2) + (c + ": " + v), q + ":", Spaces(2) + ("- " + a), Spaces(2) + ("- " + b)]
  }

  /** What lets every line of it read as written. */
  predicate NestedParts(p: string, c: string, v: string, q: string, a: string, b: string)
  {
    && PlainKey(p) && PlainKey(c) && PlainKey(q) && p != q
    && Bare(v) && v[0] != '{' && v[0] != '[' && v != "|" && v != ">"
    && Bare(a) && Bare(b) && ':' !in a && ':' !in b
    && '\n' !in p && '\n' !in c && '\n' !in v && '\n' !in q && '\n' !in a && '\n' !in b
  }

  /** The root after the first key is opened in an empty one. */
  lemma OpenedFirst(k: string, child: Value)
    ensures [Frame(-1, Map([] + [(k, child)]), Root), Frame(0, child, AtKey(k))]
      == [Frame(-1, Map([(k, child)]), Root), Frame(0, child, AtKey(k))]
  {
    assert [] + [(k, child)] == [(k, child)];
  }

  /** The root after a second key is opened behind the first. */
  lemma OpenedSecond(e: (string, Value), k: string, child: Value)
    ensures [Frame(-1, Map([e] + [(k, child)]), Root), Frame(0, child, AtKey(k))]
      == [Frame(-1, Map([e, (k, child)]), Root), Frame(0, child, AtKey(k))]
  {
    assert [e] + [(k, child)] == [e, (k, child)];
  }

  /** Storing a key in an empty top dict of `[r, top]`. */
  lemma KeyStored(r: Frame, top: Frame, k: string, x: Value)
    requires top.node == Map([])
    ensures [r] + [top.(node := Map(Put(top.node.entries, k, x)))] == [r, top.(node := Map([(k, x)]))]
  {
    assert Put([], k, x) == [(k, x)];
  }

  /** Writing a closed child back over the key that opened it. */
  lemma WrittenBack(k: string, prev: Value, x: Value)
    ensures [Frame(-1, Map(Put([(k, prev)], k, x)), Root)] == [Frame(-1, Map([(k, x)]), Root)]
  {
    assert IndexOf([(k, prev)], k) == 0;
    assert Put([(k, prev)], k, x) == [(k, prev)][0 := (k, x)];
    assert [(k, prev)][0 := (k, x)] == [(k, x)];
  }

  /** A one-entry dict holds no other key. */
  lemma OtherKey(p: string, x: Value, q: string)
    requires p != q
    ensures !HasKey([(p, x)], q)
  {
    assert IndexOf([(p, x)], q) == 1;
  }

  /** A one-frame stack has nothing to pop. */
  lemma RootPops(st: Stack, m: Entries<Value>)
    requires WellFormed(st) && st == [Frame(-1, Map(m), Root)]
    ensures PopWhile(st, 0) == [Frame(-1, Map(m), Root)]
  {
  }

  /** The empty root holds no key. */
  lemma EmptyNoKey(p: string)
    ensures var e: Entries<Value> := []; !HasKey(e, p)
  {
  }

  /** A document's first line `key:` opens `child` in the empty root: a list
      when the line after it is a `- ` item, a dict otherwise. */
  lemma FirstKeyStep(ls: seq<string>, st: Stack, key: string, t: string, child: Value)
    requires |ls| >= 2 && ls[0] == key + ":" && ls[1] == Spaces(2) + t
    requires PlainKey(key) && Bare(t) && child == (if StartsWith(t, "- ") then List([]) else Map([]))
    requires WellFormed(st) && st == [Frame(-1, Map([]), Root)]
    ensures Step(ls, 0, st) == Next(1, [Frame(-1, Map([(key, child)]), Root), Frame(0, child, AtKey(key))])
  {
    OpenedFirst(key, child);
    RootPops(st, []);
    EmptyNoKey(key);
    TopOpenStep(ls, 0, st, [], key, 2, t, child);
  }

  /** `  child: v` stores the scalar in the open dict. */
  lemma NestedLine1(ls: seq<string>, p: string, c: string, v: string, x: Value)
    requires |ls| >= 2 && ls[1] == Spaces(2) + (c + ": " + v) && x == ParseScalar(v)
    requires PlainKey(c) && Bare(v) && v[0] != '{' && v[0] != '[' && v != "|" && v != ">"
    requires WellFormed([Frame(-1, Map([(p, Map([]))]), Root), Frame(0, Map([]), AtKey(p))])
    ensures Step(ls, 1, [Frame(-1, Map([(p, Map([]))]), Root), Frame(0, Map([]), AtKey(p))])
      == Next(2, [Frame(-1, Map([(p, Map([]))]), Root), Frame(0, Map([(c, x)]), AtKey(p))])
  {
    var r1 := Frame(-1, Map([(p, Map([]))]), Root);
    var top := Frame(0, Map([]), AtKey(p));
    TwoFrames(r1, top);
    KeyStored(r1, top, c, x);
    KeyValueStep(ls, 1, [r1, top], [r1], top, 2, c, v);
  }

  /** `list_parent:` back at indent 0 closes `parent`, then opens a list, since `  - a` follows. */
  lemma NestedLine2(ls: seq<string>, p: string, c: string, q: string, a: string, x: Value)
    requires |ls| >= 4 && ls[2] == q + ":" && ls[3] == Spaces(2) + ("- " + a)
    requires PlainKey(q) && p != q && Bare(a)
    requires WellFormed([Frame(-1, Map([(p, Map([]))]), Root), Frame(0, Map([(c, x)]), AtKey(p))])
    ensures Step(ls, 2, [Frame(-1, Map([(p, Map([]))]), Root), Frame(0, Map([(c, x)]), AtKey(p))])
      == Next(3, [Frame(-1, Map([(p, Map([(c, x)])), (q, List([]))]), Root), Frame(0, List([]), AtKey(q))])
  {
    var s2 := [Frame(-1, Map([(p, Map([]))]), Root), Frame(0, Map([(c, x)]), AtKey(p))];
    ItemLine(a);
    PopToRootFrame(s2, [(p, Map([]))], p, Map([(c, x)]));
    WrittenBack(p, Map([]), Map([(c, x)]));
    OtherKey(p, Map([(c, x)]), q);
    OpenedSecond((p, Map([(c, x)])), q, List([]));
    TopOpenStep(ls, 2, s2, [(p, Map([(c, x)]))], q, 2, "- " + a, List([]));
  }

  /** `  - a` appends the item to the open list. */
  lemma NestedLine3(ls: seq<string>, r: Frame, q: string, a: string, y: Value)
    requires |ls| >= 4 && ls[3] == Spaces(2) + ("- " + a) && Bare(a) && ':' !in a && y == ParseScalar(a)
    requires WellFormed([r, Frame(0, List([]), AtKey(q))])
    ensures Step(ls, 3, [r, Frame(0, List([]), AtKey(q))]) == Next(4, [r, Frame(0, List([y]), AtKey(q))])
  {
    var top := Frame(0, List([]), AtKey(q));
    TwoFrames(r, top);
    ItemAppended(r, top, [], y);
    assert [] + [y] == [y];
    PlainItemStep(ls, 3, [r, top], [r], top, 2, a);
  }

  /** A two-frame stack written as its root followed by its top. */
  lemma TwoFrames(r: Frame, f: Frame)
    ensures [r, f] == [r] + [f]
  {
  }

  /** The top list of `[r, top]` after one more item. */
  lemma ItemAppended(r: Frame, top: Frame, items: seq<Value>, z: Value)
    requires top.node == List(items)
    ensures [r] + [top.(node := List(top.node.items + [z]))] == [r, top.(node := List(items + [z]))]
  {
  }

  /** `  - b` appends the second item after the first. */
  lemma NestedLine4(ls: seq<string>, r: Frame, q: string, b: string, y: Value, z: Value)
    requires |ls| >= 5 && ls[4] == Spaces(2) + ("- " + b) && Bare(b) && ':' !in b && z == ParseScalar(b)
    requires WellFormed([r, Frame(0, List([y]), AtKey(q))])
    ensures Step(ls, 4, [r, Frame(0, List([y]), AtKey(q))]) == Next(5, [r, Frame(0, List([y, z]), AtKey(q))])
  {
    var top := Frame(0, List([y]), AtKey(q));
    TwoFrames(r, top);
    ItemAppended(r, top, [y], z);
    assert [y] + [z] == [y, z];
    PlainItemStep(ls, 4, [r, top], [r], top, 2, b);
  }

  /** Closing a root with one open child writes the child back under its key. */
  lemma CloseTwo(m: Entries<Value>, n: int, k: string, x: Value)
    requires WellFormed([Frame(-1, Map(m), Root), Frame(n, x, AtKey(k))])
    ensures Close([Frame(-1, Map(m), Root), Frame(n, x, AtKey(k))]) == Map(Put(m, k, x))
  {
    var st := [Frame(-1, Map(m), Root), Frame(n, x, AtKey(k))];
    assert Pop(st) == [Frame(-1, Map(Put(m, k, x)), Root)];
  }

  /** Overwriting the second of two distinct keys. */
  lemma PutSecond(e: (string, Value), k: string, prev: Value, x: Value)
    requires e.0 != k
    ensures Put([e, (k, prev)], k, x) == [e, (k, x)]
  {
    assert IndexOf([e, (k, prev)], k) == 1;
  }

  /** What the document leaves behind once its last line is read. */
  lemma NestedTail5(ls: seq<string>, p: string, c: string, q: string, x: Value, y: Value, z: Value)
    requires |ls| == 5 && p != q
    requires WellFormed([Frame(-1, Map([(p, Map([(c, x)])), (q, List([]))]), Root), Frame(0, List([y, z]), AtKey(q))])
    ensures Run(ls, 5, [Frame(-1, Map([(p, Map([(c, x)])), (q, List([]))]), Root), Frame(0, List([y, z]), AtKey(q))])
      == Success(Map([(p, Map([(c, x)])), (q, List([y, z]))]))
  {
    CloseTwo([(p, Map([(c, x)])), (q, List([]))], 0, q, List([y, z]));
    PutSecond((p, Map([(c, x)])), q, List([]), List([y, z]));
  }

  /** From the second item on, the loop ends in the tree. */
  lemma NestedTail4(ls: seq<string>, p: string, c: string, q: string, b: string, x: Value, y: Value, z: Value)
    requires |ls| == 5 && p != q && ls[4] == Spaces(2) + ("- " + b) && Bare(b) && ':' !in b && z == ParseScalar(b)
    requires WellFormed([Frame(-1, Map([(p, Map([(c, x)])), (q, List([]))]), Root), Frame(0, List([y]), AtKey(q))])
    ensures Run(ls, 4, [Frame(-1, Map([(p, Map([(c, x)])), (q, List([]))]), Root), Frame(0, List([y]), AtKey(q))])
      == Success(Map([(p, Map([(c, x)])), (q, List([y, z]))]))
  {
    var r := Frame(-1, Map([(p, Map([(c, x)])), (q, List([]))]), Root);
    NestedLine4(ls, r, q, b, y, z);
    RunLink(ls, 4, [r, Frame(0, List([y]), AtKey(q))], [r, Frame(0, List([y, z]), AtKey(q))]);
    NestedTail5(ls, p, c, q, x, y, z);
  }

  /** From the first item on. */
  lemma NestedTail3(ls: seq<string>, p: string, c: string, q: string, a: string, b: string, x: Value, y: Value, z: Value)
    requires |ls| == 5 && p != q && ls[3] == Spaces(2) + ("- " + a) && Bare(a) && ':' !in a && y == ParseScalar(a)
    requires ls[4] == Spaces(2) + ("- " + b) && Bare(b) && ':' !in b && z == ParseScalar(b)
    requires WellFormed([Frame(-1, Map([(p, Map([(c, x)])), (q, List([]))]), Root), Frame(0, List([]), AtKey(q))])
    ensures Run(ls, 3, [Frame(-1, Map([(p, Map([(c, x)])), (q, List([]))]), Root), Frame(0, List([]), AtKey(q))])
      == Success(Map([(p, Map([(c, x)])), (q, List([y, z]))]))
  {
    var r := Frame(-1, Map([(p, Map([(c, x)])), (q, List([]))]), Root);
    NestedLine3(ls, r, q, a, y);
    RunLink(ls, 3, [r, Frame(0, List([]), AtKey(q))], [r, Frame(0, List([y]), AtKey(q))]);
    NestedTail4(ls, p, c, q, b, x, y, z);
  }

  /** From `list_parent:` on. */
  lemma NestedTail2(ls: seq<string>, p: string, c: string, q: string, a: string, b: string, x: Value, y: Value, z: Value)
    requires |ls| == 5 && ls[2] == q + ":" && PlainKey(q) && p != q
    requires ls[3] == Spaces(2) + ("- " + a) && Bare(a) && ':' !in a && y == ParseScalar(a)
    requires ls[4] == Spaces(2) + ("- " + b) && Bare(b) && ':' !in b && z == ParseScalar(b)
    requires WellFormed([Frame(-1, Map([(p, Map([]))]), Root), Frame(0, Map([(c, x)]), AtKey(p))])
    ensures Run(ls, 2, [Frame(-1, Map([(p, Map([]))]), Root), Frame(0, Map([(c, x)]), AtKey(p))])
      == Success(Map([(p, Map([(c, x)])), (q, List([y, z]))]))
  {
    var s2 := [Frame(-1, Map([(p, Map([]))]), Root), Frame(0, Map([(c, x)]), AtKey(p))];
    var r := Frame(-1, Map([(p, Map([(c, x)])), (q, List([]))]), Root);
    NestedLine2(ls, p, c, q, a, x);
    RunLink(ls, 2, s2, [r, Frame(0, List([]), AtKey(q))]);
    NestedTail3(ls, p, c, q, a, b, x, y, z);
  }

  /** From `  child: v` on. */
  lemma NestedTail1(ls: seq<string>, p: string, c: string, v: string, q: string, a: string, b: string, x: Value, y: Value, z: Value)
    requires |ls| == 5 && ls[1] == Spaces(2) + (c + ": " + v) && x == ParseScalar(v)
    requires PlainKey(c) && Bare(v) && v[0] != '{' && v[0] != '[' && v != "|" && v != ">"
    requires ls[2] == q + ":" && PlainKey(q) && p != q
    requires ls[3] == Spaces(2) + ("- " + a) && Bare(a) && ':' !in a && y == ParseScalar(a)
    requires ls[4] == Spaces(2) + ("- " + b) && Bare(b) && ':' !in b && z == ParseScalar(b)
    requires WellFormed([Frame(-1, Map([(p, Map([]))]), Root), Frame(0, Map([]), AtKey(p))])
    ensures Run(ls, 1, [Frame(-1, Map([(p, Map([]))]), Root), Frame(0, Map([]), AtKey(p))])
      == Success(Map([(p, Map([(c, x)])), (q, List([y, z]))]))
  {
    var s1 := [Frame(-1, Map([(p, Map([]))]), Root), Frame(0, Map([]), AtKey(p))];
    NestedLine1(ls, p, c, v, x);
    RunLink(ls, 1, s1, [Frame(-1, Map([(p, Map([]))]), Root), Frame(0, Map([(c, x)]), AtKey(p))]);
    NestedTail2(ls, p, c, q, a, b, x, y, z);
  }

  /** The first line hands the loop over to the rest of the document. */
  lemma FirstKeyRun(ls: seq<string>, st: Stack, key: string, t: string, child: Value, tree: Value)
    requires |ls| >= 2 && ls[0] == key + ":" && ls[1] == Spaces(2) + t
    requires PlainKey(key) && Bare(t) && child == (if StartsWith(t, "- ") then List([]) else Map([]))
    requires WellFormed(st) && st == [Frame(-1, Map([]), Root)]
    requires WellFormed([Frame(-1, Map([(key, child)]), Root), Frame(0, child, AtKey(key))])
    requires Run(ls, 1, [Frame(-1, Map([(key, child)]), Root), Frame(0, child, AtKey(key))]) == Success(tree)
    ensures Run(ls, 0, st) == Success(tree)
  {
    FirstKeyStep(ls, st, key, t, child);
    RunLink(ls, 0, st, [Frame(-1, Map([(key, child)]), Root), Frame(0, child, AtKey(key))]);
  }

  /** The stack after a first line `key:` is well formed. */
  lemma OpenedWellFormed(key: string, child: Value)
    requires child == List([]) || child == Map([])
    ensures WellFormed([Frame(-1, Map([(key, child)]), Root), Frame(0, child, AtKey(key))])
  {
    var st := [Frame(-1, Map([(key, child)]), Root), Frame(0, child, AtKey(key))];
    assert Linked(st[0], st[1]);
  }

  /** The whole loop. */
  lemma NestedRun(ls: seq<string>, p: string, c: string, v: string, q: string, a: string, b: string, x: Value, y: Value, z: Value)
    requires |ls| == 5 && ls[0] == p + ":" && PlainKey(p)
    requires ls[1] == Spaces(2) + (c + ": " + v) && x == ParseScalar(v)
    requires PlainKey(c) && Bare(v) && v[0] != '{' && v[0] != '[' && v != "|" && v != ">"
    requires ls[2] == q + ":" && PlainKey(q) && p != q
    requires ls[3] == Spaces(2) + ("- " + a) && Bare(a) && ':' !in a && y == ParseScalar(a)
    requires ls[4] == Spaces(2) + ("- " + b) && Bare(b) && ':' !in b && z == ParseScalar(b)
    ensures Run(ls, 0, Initial) == Success(Map([(p, Map([(c, x)])), (q, List([y, z]))]))
  {
    OpenedWellFormed(p, Map([]));
    NestedTail1(ls, p, c, v, q, a, b, x, y, z);
    ValueLine(c, v);
    InitialWellFormed();
    FirstKeyRun(ls, Initial, p, c + ": " + v, Map([]), Map([(p, Map([(c, x)])), (q, List([y, z]))]));
  }

  /** The document reads as the dict under `parent`, holding `child`, and then the
      list `[a, b]` under `list_parent`, in that order: the key line back at
      indent 0 closes the inner dict, and `list_parent:` opens a list because the
      line after it is a `- ` item. */
  lemma NestedDocument(p: string, c: string, v: string, q: string, a: string, b: string)
    requires NestedParts(p, c, v, q, a, b)
    ensures Parse(JoinWith(NestedLines(p, c, v, q, a, b), '\n'))
      == Success(Map([(p, Map([(c, ParseScalar(v))])), (q, List([ParseScalar(a), ParseScalar(b)]))]))
  {
    NestedSplits(p, c, v, q, a, b);
    var ls := NestedLines(p, c, v, q, a, b);
    NestedLinesAt(p, c, v, q, a, b);
    NestedRun(ls, p, c, v, q, a, b, ParseScalar(v), ParseScalar(a), ParseScalar(b));
  }

  /** The lines of the document one by one. */
  lemma NestedLinesAt(p: string, c: string, v: string, q: string, a: string, b: string)
    ensures var ls := NestedLines(p, c, v, q, a, b);
      && |ls| == 5 && ls[0] == p + ":" && ls[1] == Spaces(2) + (c + ": " + v) && ls[2] == q + ":"
      && ls[3] == Spaces(2) + ("- " + a) && ls[4] == Spaces(2) + ("- " + b)
  {
  }

  lemma NestedSplits(p: string, c: string, v: string, q: string, a: string, b: string)
    requires NestedParts(p, c, v, q, a, b)
    ensures SplitOn(JoinWith(NestedLines(p, c, v, q, a, b), '\n'), '\n') == NestedLines(p, c, v, q, a, b)
  {
    Text.SplitJoin(NestedLines(p, c, v, q, a, b), '\n');
  }

  // A list whose one item is a dict with two fields:
  //
  //     items:
  //       - name: x
  //         id: y

  /** The lines of that document. */
  function ItemsLines(k: string, f1: string, x: string, f2: string, y: string): seq<string>
  {
    [k + ":", Spaces(2) + ("- " + (f1 + ": " + x)), Spaces(4) + (f2 + ": " + y)]
  }

  /** What lets every line of it read as written. */
  predicate ItemsParts(k: string, f1: string, x: string, f2: string, y: string)
  {
    && PlainKey(k) && PlainKey(f1) && f1[0] != '"' && f1[0] != '\'' && PlainKey(f2) && f1 != f2
    && Bare(x) && Bare(y) && y[0] != '{' && y[0] != '[' && y != "|" && y != ">"
    && '\n' !in k && '\n' !in f1 && '\n' !in x && '\n' !in f2 && '\n' !in y
  }

  /** The list under the first key after its item `f1: x`. */
  lemma ItemOpened(r: Frame, top: Frame, d: Value)
    requires top.node == List([])
    ensures [r] + [top.(node := List(top.node.items + [d])), Frame(2, d, AtLast)]
      == [r, top.(node := List([d])), Frame(2, d, AtLast)]
  {
    assert [] + [d] == [d];
  }

  /** The item dict after its second field. */
  lemma FieldStored(r: Frame, l: Frame, top: Frame, f1: string, x: Value, f2: string, y: Value)
    requires top.node == Map([(f1, x)]) && f1 != f2
    ensures [r, l] + [top.(node := Map(Put(top.node.entries, f2, y)))] == [r, l, top.(node := Map([(f1, x), (f2, y)]))]
  {
    OtherKey(f1, x, f2);
    assert Put([(f1, x)], f2, y) == [(f1, x)] + [(f2, y)];
    assert [(f1, x)] + [(f2, y)] == [(f1, x), (f2, y)];
  }

  /** `  - name: x` appends a dict holding `name` to the list and opens it. */
  lemma ItemsLine1(ls: seq<string>, r: Frame, k: string, f1: string, x: string, d: Value)
    requires |ls| >= 2 && ls[1] == Spaces(2) + ("- " + (f1 + ": " + x))
    requires PlainKey(f1) && f1[0] != '"' && f1[0] != '\'' && Bare(x) && d == Map([(f1, ParseScalar(x))])
    requires WellFormed([r, Frame(0, List([]), AtKey(k))])
    ensures Step(ls, 1, [r, Frame(0, List([]), AtKey(k))]) == Next(2, [r, Frame(0, List([d]), AtKey(k)), Frame(2, d, AtLast)])
  {
    var top := Frame(0, List([]), AtKey(k));
    TwoFrames(r, top);
    ItemOpened(r, top, d);
    DictItemStep(ls, 1, [r, top], [r], top, 2, f1, x);
  }

  /** `    id: y` lands in that open dict, after `name`. */
  lemma ItemsLine2(ls: seq<string>, r: Frame, l: Frame, f1: string, x: Value, f2: string, y: string, z: Value)
    requires |ls| >= 3 && ls[2] == Spaces(4) + (f2 + ": " + y) && z == ParseScalar(y)
    requires PlainKey(f2) && Bare(y) && y[0] != '{' && y[0] != '[' && y != "|" && y != ">" && f1 != f2
    requires WellFormed([r, l, Frame(2, Map([(f1, x)]), AtLast)])
    ensures Step(ls, 2, [r, l, Frame(2, Map([(f1, x)]), AtLast)]) == Next(3, [r, l, Frame(2, Map([(f1, x), (f2, z)]), AtLast)])
  {
    var top := Frame(2, Map([(f1, x)]), AtLast);
    assert [r, l, top] == [r, l] + [top];
    FieldStored(r, l, top, f1, x, f2, z);
    KeyValueStep(ls, 2, [r, l, top], [r, l], top, 4, f2, y);
  }

  /** Closing the three frames writes the dict back as the list's only item
      and the list back under its key. */
  lemma CloseItems(k: string, d: Value, e: Value)
    requires WellFormed([Frame(-1, Map([(k, List([]))]), Root), Frame(0, List([d]), AtKey(k)), Frame(2, e, AtLast)])
    ensures Close([Frame(-1, Map([(k, List([]))]), Root), Frame(0, List([d]), AtKey(k)), Frame(2, e, AtLast)])
      == Map([(k, List([e]))])
  {
    var st := [Frame(-1, Map([(k, List([]))]), Root), Frame(0, List([d]), AtKey(k)), Frame(2, e, AtLast)];
    assert [d][..0] + [e] == [e];
    assert Pop(st) == [Frame(-1, Map([(k, List([]))]), Root), Frame(0, List([e]), AtKey(k))];
    CloseTwo([(k, List([]))], 0, k, List([e]));
    WrittenBack(k, List([]), List([e]));
  }

  /** What the document leaves behind once its last line is read. */
  lemma ItemsTail3(ls: seq<string>, k: string, d: Value, e: Value)
    requires |ls| == 3
    requires WellFormed([Frame(-1, Map([(k, List([]))]), Root), Frame(0, List([d]), AtKey(k)), Frame(2, e, AtLast)])
    ensures Run(ls, 3, [Frame(-1, Map([(k, List([]))]), Root), Frame(0, List([d]), AtKey(k)), Frame(2, e, AtLast)])
      == Success(Map([(k, List([e]))]))
  {
    CloseItems(k, d, e);
  }

  /** From the item's second field on. */
  lemma ItemsTail2(ls: seq<string>, k: string, f1: string, x: Value, f2: string, y: string, z: Value)
    requires |ls| == 3 && ls[2] == Spaces(4) + (f2 + ": " + y) && z == ParseScalar(y)
    requires PlainKey(f2) && Bare(y) && y[0] != '{' && y[0] != '[' && y != "|" && y != ">" && f1 != f2
    requires WellFormed([Frame(-1, Map([(k, List([]))]), Root), Frame(0, List([Map([(f1, x)])]), AtKey(k)), Frame(2, Map([(f1, x)]), AtLast)])
    ensures Run(ls, 2, [Frame(-1, Map([(k, List([]))]), Root), Frame(0, List([Map([(f1, x)])]), AtKey(k)), Frame(2, Map([(f1, x)]), AtLast)])
      == Success(Map([(k, List([Map([(f1, x), (f2, z)])]))]))
  {
    var r := Frame(-1, Map([(k, List([]))]), Root);
    var l := Frame(0, List([Map([(f1, x)])]), AtKey(k));
    ItemsLine2(ls, r, l, f1, x, f2, y, z);
    RunLink(ls, 2, [r, l, Frame(2, Map([(f1, x)]), AtLast)], [r, l, Frame(2, Map([(f1, x), (f2, z)]), AtLast)]);
    ItemsTail3(ls, k, Map([(f1, x)]), Map([(f1, x), (f2, z)]));
  }

  /** From the item on. */
  lemma ItemsTail1(ls: seq<string>, k: string, f1: string, x: string, f2: string, y: string, u: Value, z: Value)
    requires |ls| == 3 && ls[1] == Spaces(2) + ("- " + (f1 + ": " + x)) && u == ParseScalar(x)
    requires PlainKey(f1) && f1[0] != '"' && f1[0] != '\'' && Bare(x)
    requires ls[2] == Spaces(4) + (f2 + ": " + y) && z == ParseScalar(y)
    requires PlainKey(f2) && Bare(y) && y[0] != '{' && y[0] != '[' && y != "|" && y != ">" && f1 != f2
    requires WellFormed([Frame(-1, Map([(k, List([]))]), Root), Frame(0, List([]), AtKey(k))])
    ensures Run(ls, 1, [Frame(-1, Map([(k, List([]))]), Root), Frame(0, List([]), AtKey(k))])
      == Success(Map([(k, List([Map([(f1, u), (f2, z)])]))]))
  {
    var r := Frame(-1, Map([(k, List([]))]), Root);
    var d := Map([(f1, u)]);
    ItemsLine1(ls, r, k, f1, x, d);
    RunLink(ls, 1, [r, Frame(0, List([]), AtKey(k))], [r, Frame(0, List([d]), AtKey(k)), Frame(2, d, AtLast)]);
    ItemsTail2(ls, k, f1, u, f2, y, z);
  }

  /** The whole loop. */
  lemma ItemsRun(ls: seq<string>, k: string, f1: string, x: string, f2: string, y: string, u: Value, z: Value)
    requires |ls| == 3 && ls[0] == k + ":" && PlainKey(k)
    requires ls[1] == Spaces(2) + ("- " + (f1 + ": " + x)) && u == ParseScalar(x)
    requires PlainKey(f1) && f1[0] != '"' && f1[0] != '\'' && Bare(x)
    requires ls[2] == Spaces(4) + (f2 + ": " + y) && z == ParseScalar(y)
    requires PlainKey(f2) && Bare(y) && y[0] != '{' && y[0] != '[' && y != "|" && y != ">" && f1 != f2
    ensures Run(ls, 0, Initial) == Success(Map([(k, List([Map([(f1, u), (f2, z)])]))]))
  {
    OpenedWellFormed(k, List([]));
    ItemsTail1(ls, k, f1, x, f2, y, u, z);
    DictItemText(f1, x);
    ItemLine(f1 + ": " + x);
    InitialWellFormed();
    FirstKeyRun(ls, Initial, k, "- " + (f1 + ": " + x), List([]), Map([(k, List([Map([(f1, u), (f2, z)])]))]));
  }

  /** The document reads as one list under `items` whose only element is a
      single dict holding both fields in order: the `- name: x` line opens the
      dict at the item's indent, and the deeper `id: y` line lands in it rather
      than in the list or the root. */
  lemma ItemsDocument(k: string, f1: string, x: string, f2: string, y: string)
    requires ItemsParts(k, f1, x, f2, y)
    ensures Parse(JoinWith(ItemsLines(k, f1, x, f2, y), '\n'))
      == Success(Map([(k, List([Map([(f1, ParseScalar(x)), (f2, ParseScalar(y))])]))]))
  {
    ItemsSplits(k, f1, x, f2, y);
    ItemsRun(ItemsLines(k, f1, x, f2, y), k, f1, x, f2, y, ParseScalar(x), ParseScalar(y));
  }

  lemma ItemsSplits(k: string, f1: string, x: string, f2: string, y: string)
    requires ItemsParts(k, f1, x, f2, y)
    ensures SplitOn(JoinWith(ItemsLines(k, f1, x, f2, y), '\n'), '\n') == ItemsLines(k, f1, x, f2, y)
  {
    Text.SplitJoin(ItemsLines(k, f1, x, f2, y), '\n');
  }
}
