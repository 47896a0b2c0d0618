/** `_parse_nested`, the line-driven fallback parser, and `extract_section`. */
module YamlParser {
  import opened Common
  import opened Text
  import opened Assoc
  import opened Values
  import opened YamlScalar
  import opened YamlLines
  import opened YamlInline
  import opened YamlStack

  /** Python raises `TypeError` when a `key: value` line lands in a list
      (`parent[key]` on a `list`); the model records the line it happened on. */
  datatype ParseError = KeyInList(line: nat)

  /** What one line does: the index of the next line to read and the new stack,
      or the `TypeError`. */
  datatype Outcome = Next(i: nat, stack: Stack) | Fail

  /** The text `_parse_nested` judges a line by: comment cut off, then stripped. */
  function Content(line: string): (r: string)
    ensures |r| <= |line|
    ensures r == [] || (!IsSpace(r[0]) && !IsSpace(r[|r| - 1]))
  {
    Strip(WithoutComment(line))
  }

  /** Blank and comment-only lines are skipped. */
  predicate Skipped(line: string)
  {
    Content(line) == "" || StartsWith(Content(line), "#")
  }

  /** The next substantive line is a list item, so `key:` opens a list. */
  predicate NextIsListItem(lines: seq<string>, start: nat)
  {
    var n := NextSubstantive(lines, start);
    n.Some? && StartsWith(Strip(lines[n.value]), "- ")
  }

  /** The dict a `- key: value` item opens: the key maps to the scalar, or to an
      empty dict when nothing follows the colon. */
  function ItemDict(item: string): (d: Value)
    requires ':' in item
    ensures d.Map? && |d.entries| == 1 && WellKeyed(d)
    ensures d.entries[0].0 == Strip(Before(item, ':'))
    ensures Strip(After(item, ':')) == "" ==> d.entries[0].1 == Map([])
    ensures Strip(After(item, ':')) != "" ==> d.entries[0].1 == ParseScalar(Strip(After(item, ':')))
  {
    var k := Strip(Before(item, ':'));
    var v := Strip(After(item, ':'));
    var d := Map([(k, if v != "" then ParseScalar(v) else Map([]))]);
    assert WellKeyed(d.entries[0].1) by {
      if v != "" {
        ScalarWellKeyed(ParseScalar(v));
      }
    }
    d
  }

  /** A `- ` line. Under a dict the item is dropped; under a list a quoted item
      and an item without `:` are appended as scalars, and a `key: value` item
      appends a one-entry dict and opens it at the line's indent. */
  function ListItem(st: Stack, indent: int, item: string): (r: Stack)
    requires WellFormed(st) && Innermost(st).indent < indent
    ensures WellFormed(r)
  {
    if !Innermost(st).node.List? then st
    else if IsDoubleQuoted(item) || IsSingleQuoted(item) || ':' !in item then
      ScalarWellKeyed(ParseScalar(item));
      Append(st, ParseScalar(item))
    else
      var d := ItemDict(item);
      Push(Append(st, d), Frame(indent, d, AtLast))
  }

  /** The value a `key: rest` line stores when `rest` is not empty, and the line
      parsing goes on from: a block string after `|` or `>`, a flow dict, a flow
      list, or a scalar. */
  function KeyValue(lines: seq<string>, i: nat, indent: int, rest: string): (r: (Value, nat))
    requires i < |lines|
    ensures i < r.1 <= |lines| && WellKeyed(r.0)
    ensures rest == "|" || rest == ">" ==>
      r == (Str(JoinWith(BlockLines(lines, i + 1, indent), '\n')), BlockEnd(lines, i + 1, indent))
    ensures rest != "|" && rest != ">" ==> r.1 == i + 1
    ensures rest != "|" && rest != ">" && StartsWith(rest, "{") ==> r.0 == InlineDict(rest)
    ensures rest != "|" && rest != ">" && !StartsWith(rest, "{") && StartsWith(rest, "[") ==> r.0 == InlineList(rest)
    ensures rest != "|" && rest != ">" && !StartsWith(rest, "{") && !StartsWith(rest, "[") ==> r.0 == ParseScalar(rest)
  {
    if rest == "|" || rest == ">" then
      (Str(JoinWith(BlockLines(lines, i + 1, indent), '\n')), BlockEnd(lines, i + 1, indent))
    else if StartsWith(rest, "{") then
      InlineDictWellKeyed(rest);
      (InlineDict(rest), i + 1)
    else if StartsWith(rest, "[") then
      InlineListWellKeyed(rest);
      (InlineList(rest), i + 1)
    else
      ScalarWellKeyed(ParseScalar(rest));
      (ParseScalar(rest), i + 1)
  }

  /** `parent[key] = child; stack.append((indent, child))` for an empty container `child`. */
  function Open(st: Stack, key: string, child: Value, indent: int): (r: Stack)
    requires WellFormed(st) && Innermost(st).node.Map? && Innermost(st).indent < indent
    requires child == List([]) || child == Map([])
    ensures WellFormed(r)
  {
    var st1 := SetKey(st, key, child);
    assert HasKey(Innermost(st1).node.entries, key);
    Push(st1, Frame(indent, child, AtKey(key)))
  }

  /** A `key: rest` line. Under a list it is the `TypeError`. An empty `rest`
      opens a list when the next substantive line is a `- ` item and a dict
      otherwise, stored under the key and pushed at the line's indent; any other
      `rest` stores its value under the key. */
  function KeyLine(lines: seq<string>, i: nat, st: Stack, indent: int, t: string): (o: Outcome)
    requires i < |lines| && WellFormed(st) && Innermost(st).indent < indent && ':' in t
    ensures o.Next? ==> i < o.i <= |lines| && WellFormed(o.stack)
  {
    if Innermost(st).node.List? then Fail
    else
      InnermostIsContainer(st);
      var key := Strip(Before(t, ':'));
      var rest := Strip(After(t, ':'));
      if rest == "" then
        var child := if NextIsListItem(lines, i + 1) then List([]) else Map([]);
        Next(i + 1, Open(st, key, child, indent))
      else
        var kv := KeyValue(lines, i, indent, rest);
        Next(kv.1, SetKey(st, key, kv.0))
  }

  /** One turn of the loop of `_parse_nested` on line `i`. */
  function Step(lines: seq<string>, i: nat, st: Stack): (o: Outcome)
    requires i < |lines| && WellFormed(st)
    ensures o.Next? ==> i < o.i <= |lines| && WellFormed(o.stack)
  {
    if Skipped(lines[i]) then Next(i + 1, st)
    else
      var indent := IndentLevel(lines[i]);
      PopBelow(st, indent);
      Dispatch(lines, i, PopWhile(st, indent), indent, Content(lines[i]))
  }

  /** After popping to a line's indent, the innermost frame is indented less. */
  lemma PopBelow(st: Stack, indent: nat)
    requires WellFormed(st)
    ensures Innermost(PopWhile(st, indent)).indent < indent
  {
    var r := PopWhile(st, indent);
    if |r| == 1 {
      assert r[0].indent == -1;
    }
  }

  /** A substantive line `t` after the pop: a list item, a `key: value` line, or
      text without a colon, which is ignored. */
  function Dispatch(lines: seq<string>, i: nat, st: Stack, indent: int, t: string): (o: Outcome)
    requires i < |lines| && WellFormed(st) && Innermost(st).indent < indent
    ensures o.Next? ==> i < o.i <= |lines| && WellFormed(o.stack)
  {
    if StartsWith(t, "- ") then Next(i + 1, ListItem(st, indent, Strip(t[2..])))
    else if ':' in t then KeyLine(lines, i, st, indent, t)
    else Next(i + 1, st)
  }

  /** The loop of `_parse_nested` from line `i` on. */
  function Run(lines: seq<string>, i: nat, st: Stack): (r: Result<Value, ParseError>)
    requires i <= |lines| && WellFormed(st)
    ensures r.Success? ==> r.value.Map? && WellKeyed(r.value)
    decreases |lines| - i
  {
    if i == |lines| then Success(Close(st))
    else
      match Step(lines, i, st)
      case Fail => Failure(KeyInList(i))
      case Next(j, st1) => Run(lines, j, st1)
  }

  /** What `_parse_nested` returns for `content`: always a dict, with unique keys throughout. */
  function Parse(content: string): (r: Result<Value, ParseError>)
    ensures r.Success? ==> r.value.Map? && WellKeyed(r.value)
  {
    InitialWellFormed();
    Run(SplitOn(content, '\n'), 0, Initial)
  }

  /** Blank and comment-only lines leave the stack alone. */
  lemma SkippedLineKeepsStack(lines: seq<string>, i: nat, st: Stack)
    requires i < |lines| && WellFormed(st) && Skipped(lines[i])
    ensures Step(lines, i, st) == Next(i + 1, st)
  {
  }

  /** A line the look-ahead passes over as blank or a comment is skipped by the
      loop as well, though the loop cuts comments first and the look-ahead does not. */
  lemma UnsubstantiveSkipped(line: string)
    requires !Substantive(line)
    ensures Skipped(line)
  {
    UnsubstantiveContent(line);
  }

  /** A line fails exactly when it is a `key: value` line (not a `- ` item) whose
      parent, after popping to its indent, is a list. */
  lemma StepFailsIff(lines: seq<string>, i: nat, st: Stack)
    requires i < |lines| && WellFormed(st)
    ensures var t := Content(lines[i]);
      Step(lines, i, st) == Fail <==>
        && !Skipped(lines[i])
        && !StartsWith(t, "- ")
        && ':' in t
        && Innermost(PopWhile(st, IndentLevel(lines[i]))).node.List?
  {
  }

  /** An empty `key:` under a dict pushes a new frame at the line's indent, held
      under the key: an empty list exactly when the next substantive line, stripped,
      starts with `- ` (whatever its indentation), and an empty dict otherwise. */
  lemma KeyLineOpens(lines: seq<string>, i: nat, st: Stack, indent: int, t: string)
    requires i < |lines| && WellFormed(st) && Innermost(st).indent < indent && ':' in t
    requires Innermost(st).node.Map? && Strip(After(t, ':')) == ""
    ensures var o := KeyLine(lines, i, st, indent, t);
      && o.Next? && o.i == i + 1 && |o.stack| == |st| + 1
      && Innermost(o.stack).indent == indent
      && Innermost(o.stack).slot == AtKey(Strip(Before(t, ':')))
      && (Innermost(o.stack).node == List([]) <==> NextIsListItem(lines, i + 1))
      && (Innermost(o.stack).node == Map([]) <==> !NextIsListItem(lines, i + 1))
  {
  }

  /** A quoted `- ` item under a list is appended as a scalar, even when it holds a `:`. */
  lemma QuotedItemAppended(st: Stack, indent: int, item: string)
    requires WellFormed(st) && Innermost(st).indent < indent && Innermost(st).node.List?
    requires IsDoubleQuoted(item) || IsSingleQuoted(item)
    ensures var r := ListItem(st, indent, item);
      && |r| == |st| && r[..|r| - 1] == st[..|st| - 1]
      && Innermost(r).node == List(Innermost(st).node.items + [ParseScalar(item)])
      && IsScalar(ParseScalar(item))
  {
  }

  /** An unquoted `- key: value` item under a list appends a one-entry dict and
      pushes that dict at the item's indent as the list's last element. */
  lemma DictItemPushed(st: Stack, indent: int, item: string)
    requires WellFormed(st) && Innermost(st).indent < indent && Innermost(st).node.List?
    requires !IsDoubleQuoted(item) && !IsSingleQuoted(item) && ':' in item
    ensures var r := ListItem(st, indent, item);
      && |r| == |st| + 1
      && Innermost(r) == Frame(indent, ItemDict(item), AtLast)
      && r[|st| - 1].node == List(Innermost(st).node.items + [ItemDict(item)])
      && ItemDict(item).entries[0].0 == Strip(Before(item, ':'))
  {
    var d := ItemDict(item);
    var a := Append(st, d);
    var f := Frame(indent, d, AtLast);
    assert ListItem(st, indent, item) == Push(a, f);
    LastTwo(a, f);
  }

  /** The two last elements of a sequence with one element added. */
  lemma LastTwo<T>(a: seq<T>, f: T)
    requires |a| > 0
    ensures |a + [f]| == |a| + 1 && (a + [f])[|a| - 1] == a[|a| - 1] && (a + [f])[|a|] == f
  {
  }

  /** A `- ` item whose parent, after popping to its indent, is a dict is dropped:
      the stack stays as it is. */
  lemma DispatchDropped(lines: seq<string>, i: nat, st: Stack, indent: int, t: string)
    requires i < |lines| && WellFormed(st) && Innermost(st).indent < indent
    requires StartsWith(t, "- ") && Innermost(st).node.Map?
    ensures Dispatch(lines, i, st, indent, t) == Next(i + 1, st)
  {
  }

  /** A stack of one frame is the root holding the tree. */
  lemma RootOnly(st: Stack)
    requires WellFormed(st) && |st| == 1
    ensures st == [Frame(-1, Close(st), Root)]
  {
  }

  /** A `key: value` line at indent 0 closes every open container and stores
      its value under its key in the root dict; the stack is then the root alone. */
  lemma TopLevelKeyLine(lines: seq<string>, i: nat, st: Stack)
    requires i < |lines| && WellFormed(st) && IndentLevel(lines[i]) == 0
    requires var t := Content(lines[i]);
      !Skipped(lines[i]) && !StartsWith(t, "- ") && ':' in t && Strip(After(t, ':')) != ""
    ensures var t := Content(lines[i]);
      var kv := KeyValue(lines, i, 0, Strip(After(t, ':')));
      Step(lines, i, st) == Next(kv.1, [Frame(-1, Map(Put(Close(st).entries, Strip(Before(t, ':')), kv.0)), Root)])
  {
    var t := Content(lines[i]);
    var st1 := PopWhile(st, 0);
    assert st1 == [Frame(-1, Close(st), Root)] by {
      PopToRoot(st);
      PopWhileKeepsTree(st, 0);
      RootOnly(st1);
    }
    PopBelow(st, 0);
    DispatchKey(lines, i, st1, 0, t);
    var rest := Strip(After(t, ':'));
    var kv := KeyValue(lines, i, 0, rest);
    KeyLineStores(lines, i, st1, 0, t);
    SetKeyRoot(st1, Strip(Before(t, ':')), kv.0);
  }

  lemma DispatchKey(lines: seq<string>, i: nat, st: Stack, indent: int, t: string)
    requires i < |lines| && WellFormed(st) && Innermost(st).indent < indent
    requires !StartsWith(t, "- ") && ':' in t
    ensures Dispatch(lines, i, st, indent, t) == KeyLine(lines, i, st, indent, t)
  {
  }

  lemma KeyLineStores(lines: seq<string>, i: nat, st: Stack, indent: int, t: string)
    requires i < |lines| && WellFormed(st) && Innermost(st).indent < indent && ':' in t
    requires Innermost(st).node.Map? && Strip(After(t, ':')) != ""
    ensures var kv := KeyValue(lines, i, indent, Strip(After(t, ':')));
      KeyLine(lines, i, st, indent, t) == Next(kv.1, SetKey(st, Strip(Before(t, ':')), kv.0))
  {
  }

  lemma SetKeyRoot(st: Stack, key: string, v: Value)
    requires WellFormed(st) && |st| == 1 && WellKeyed(v)
    ensures SetKey(st, key, v) == [Frame(-1, Map(Put(st[0].node.entries, key, v)), Root)]
  {
    var r := SetKey(st, key, v);
    assert r == [Innermost(r)];
  }

  /** Opening an empty container for `key:` is the same tree as storing it:
      Python's `parent[key] = new` and the pushed frame share the container. */
  lemma OpenKeepsTree(st: Stack, key: string, child: Value, indent: int)
    requires WellFormed(st) && Innermost(st).node.Map? && Innermost(st).indent < indent
    requires child == List([]) || child == Map([])
    ensures Close(Open(st, key, child, indent)) == Close(SetKey(st, key, child))
  {
    OpenPops(st, key, child, indent);
  }

  /** Popping the frame `Open` pushed writes the container back where `SetKey` put it. */
  lemma OpenPops(st: Stack, key: string, child: Value, indent: int)
    requires WellFormed(st) && Innermost(st).node.Map? && Innermost(st).indent < indent
    requires child == List([]) || child == Map([])
    ensures |Open(st, key, child, indent)| > 1 && Pop(Open(st, key, child, indent)) == SetKey(st, key, child)
  {
    var st1 := SetKey(st, key, child);
    var st2 := Open(st, key, child, indent);
    var f := Innermost(st1);
    assert st2 == st1 + [Frame(indent, child, AtKey(key))];
    assert Pop(st2) == st1[..|st1| - 1] + [f.(node := Attach(f.node, AtKey(key), child))];
    assert Attach(f.node, AtKey(key), child) == f.node by {
      PutPut(Innermost(st).node.entries, key, child, child);
    }
  }

  lemma RunStep(lines: seq<string>, i: nat, st: Stack)
    requires i < |lines| && WellFormed(st) && Step(lines, i, st).Next?
    ensures Run(lines, i, st) == Run(lines, Step(lines, i, st).i, Step(lines, i, st).stack)
  {
  }

  /** The pop loop of `_parse_nested`; `Pop` writes each popped container back. */
  method PopFrames(st: Stack, indent: int) returns (r: Stack)
    requires WellFormed(st)
    ensures r == PopWhile(st, indent)
  {
    r := st;
    while |r| > 1 && Innermost(r).indent >= indent
      invariant WellFormed(r)
      invariant PopWhile(r, indent) == PopWhile(st, indent)
      decreases |r|
    {
      r := Pop(r);
    }
  }

  /** The `- ` branch of `_parse_nested`. */
  method AddItem(st: Stack, indent: int, item: string) returns (r: Stack)
    requires WellFormed(st) && Innermost(st).indent < indent
    ensures r == ListItem(st, indent, item)
  {
    if !Innermost(st).node.List? {
      return st;
    }
    if IsDoubleQuoted(item) || IsSingleQuoted(item) || ':' !in item {
      ScalarWellKeyed(ParseScalar(item));
      return Append(st, ParseScalar(item));
    }
    var k := Strip(Before(item, ':'));
    var v := Strip(After(item, ':'));
    var d;
    if v != "" {
      d := Map([(k, ParseScalar(v))]);
    } else {
      d := Map([(k, Map([]))]);
    }
    assert d == ItemDict(item);
    r := Push(Append(st, d), Frame(indent, d, AtLast));
  }

  /** The `key: rest` branch of `_parse_nested`, with its look-ahead, block
      collection and flow parsing. */
  method StoreKey(lines: seq<string>, i: nat, st: Stack, indent: int, t: string) returns (o: Outcome)
    requires i < |lines| && WellFormed(st) && Innermost(st).indent < indent && ':' in t
    ensures o == KeyLine(lines, i, st, indent, t)
  {
    if Innermost(st).node.List? {
      return Fail;
    }
    InnermostIsContainer(st);
    var key := Strip(Before(t, ':'));
    var rest := Strip(After(t, ':'));
    if rest == "" {
      var _, nextLine := PeekNext(lines, i + 1);
      var child;
      if nextLine.Some? && StartsWith(Strip(nextLine.value), "- ") {
        child := List([]);
      } else {
        child := Map([]);
      }
      return Next(i + 1, Open(st, key, child, indent));
    }
    var value;
    var next := i + 1;
    if rest == "|" || rest == ">" {
      var block;
      block, next := ConsumeBlock(lines, i + 1, indent);
      value := Str(JoinWith(block, '\n'));
    } else if StartsWith(rest, "{") {
      value := ParseInlineDict(rest);
    } else if StartsWith(rest, "[") {
      value := ParseInlineList(rest);
    } else {
      value := ParseScalar(rest);
    }
    assert (value, next) == KeyValue(lines, i, indent, rest);
    o := Next(next, SetKey(st, key, value));
  }

  /** One turn of the loop of `_parse_nested`. */
  method ParseLine(lines: seq<string>, i: nat, st: Stack) returns (o: Outcome)
    requires i < |lines| && WellFormed(st)
    ensures o == Step(lines, i, st)
  {
    var raw := lines[i];
    var stripped := StripComment(raw);
    var t := Strip(stripped);
    if t == "" || StartsWith(t, "#") {
      return Next(i + 1, st);
    }
    var indent := IndentLevel(raw);
    StepDispatches(lines, i, st);
    var stack := PopFrames(st, indent);
    if StartsWith(t, "- ") {
      DispatchItem(lines, i, stack, indent, t);
      var s1 := AddItem(stack, indent, Strip(t[2..]));
      return Next(i + 1, s1);
    }
    if ':' in t {
      DispatchKey(lines, i, stack, indent, t);
      o := StoreKey(lines, i, stack, indent, t);
      return;
    }
    return Next(i + 1, stack);
  }

  lemma StepDispatches(lines: seq<string>, i: nat, st: Stack)
    requires i < |lines| && WellFormed(st) && !Skipped(lines[i])
    ensures Innermost(PopWhile(st, IndentLevel(lines[i]))).indent < IndentLevel(lines[i])
    ensures Step(lines, i, st) == Dispatch(lines, i, PopWhile(st, IndentLevel(lines[i])), IndentLevel(lines[i]), Content(lines[i]))
  {
    PopBelow(st, IndentLevel(lines[i]));
  }

  lemma DispatchItem(lines: seq<string>, i: nat, st: Stack, indent: int, t: string)
    requires i < |lines| && WellFormed(st) && Innermost(st).indent < indent && StartsWith(t, "- ")
    ensures Dispatch(lines, i, st, indent, t) == Next(i + 1, ListItem(st, indent, Strip(t[2..])))
  {
  }

  /** `_parse_nested`: split the content into lines and run the loop over them. */
  method ParseNested(content: string) returns (r: Result<Value, ParseError>)
    ensures r == Parse(content)
    ensures r.Success? ==> r.value.Map? && WellKeyed(r.value)
  {
    var lines := SplitOn(content, '\n');
    InitialWellFormed();
    var stack := Initial;
    var i := 0;
    while i < |lines|
      invariant i <= |lines| && WellFormed(stack)
      invariant Run(lines, i, stack) == Parse(content)
      decreases |lines| - i
    {
      var o := ParseLine(lines, i, stack);
      if o.Fail? {
        return Failure(KeyInList(i));
      }
      RunStep(lines, i, stack);
      i, stack := o.i, o.stack;
    }
    r := Success(Close(stack));
  }

  /** The value at the end of the key path, or `None` when a step is not a dict
      or lacks the key. */
  function Walk(v: Value, keys: seq<string>): (r: Option<Value>)
    ensures keys != [] && r.Some? ==> v.Map? && HasKey(v.entries, keys[0])
    decreases |keys|
  {
    if keys == [] then Some(v)
    else if v.Map? && HasKey(v.entries, keys[0]) then Walk(Get(v.entries, keys[0]), keys[1..])
    else None
  }

  /** `extract_section`: follow the dot-separated path one key at a time. */
  method ExtractSection(config: Value, dotpath: string) returns (r: Option<Value>)
    ensures r == Walk(config, SplitOn(dotpath, '.'))
  {
    var keys := SplitOn(dotpath, '.');
    var current := config;
    var n := 0;
    while n < |keys|
      invariant n <= |keys|
      invariant Walk(current, keys[n..]) == Walk(config, keys)
      decreases |keys| - n
    {
      var key := keys[n];
      if !current.Map? || !HasKey(current.entries, key) {
        return None;
      }
      assert keys[n..][1..] == keys[n + 1..];
      current := Get(current.entries, key);
      n := n + 1;
    }
    assert keys[n..] == [];
    return Some(current);
  }

  /** Walking a path in two pieces: the second piece starts where the first ends. */
  lemma {:induction false} WalkAppend(v: Value, a: seq<string>, b: seq<string>)
    ensures Walk(v, a + b) == if Walk(v, a).Some? then Walk(Walk(v, a).value, b) else None
    decreases |a|
  {
    if a != [] {
      assert (a + b)[0] == a[0] && (a + b)[1..] == a[1..] + b;
      if v.Map? && HasKey(v.entries, a[0]) {
        WalkAppend(Get(v.entries, a[0]), a[1..], b);
      }
    } else {
      assert a + b == b;
    }
  }

  /** A dotted path built from dot-free keys walks exactly those keys. */
  lemma ExtractJoinedPath(config: Value, keys: seq<string>)
    requires |keys| >= 1 && forall i :: 0 <= i < |keys| ==> '.' !in keys[i]
    ensures Walk(config, SplitOn(JoinWith(keys, '.'), '.')) == Walk(config, keys)
  {
    Text.SplitJoin(keys, '.');
  }

  /** The documented example: `extract_section({"a": {"b": {"c": 1}}}, "a.b.c")` is `1`. */
  lemma ExtractExample()
    ensures Walk(Map([("a", Map([("b", Map([("c", Int(1))]))]))]), SplitOn("a.b.c", '.')) == Some(Int(1))
  {
    ExamplePath();
    ExampleWalk();
  }

  lemma ExamplePath()
    ensures SplitOn("a.b.c", '.') == ["a", "b", "c"]
  {
    var keys := ["a", "b", "c"];
    assert JoinWith(keys, '.') == "a.b.c";
    Text.SplitJoin(keys, '.');
  }

  lemma ExampleWalk()
    ensures Walk(Map([("a", Map([("b", Map([("c", Int(1))]))]))]), ["a", "b", "c"]) == Some(Int(1))
  {
    var c := Map([("c", Int(1))]);
    var b := Map([("b", c)]);
    var a := Map([("a", b)]);
    assert Walk(c, ["c"]) == Some(Int(1)) by {
      assert IndexOf(c.entries, "c") == 0;
      assert ["c"][1..] == [];
    }
    assert Walk(b, ["b", "c"]) == Walk(c, ["c"]) by {
      assert IndexOf(b.entries, "b") == 0;
      assert ["b", "c"][1..] == ["c"];
    }
    assert Walk(a, ["a", "b", "c"]) == Walk(b, ["b", "c"]) by {
      assert IndexOf(a.entries, "a") == 0;
      assert ["a", "b", "c"][1..] == ["b", "c"];
    }
  }
}
