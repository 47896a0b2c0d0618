/** The container stack of `_parse_nested`. Python keeps `(indent, container)`
    pairs whose containers are shared with their parents, so writing into the
    innermost one changes the whole tree at once. The model keeps the same stack
    as a zipper: each frame holds its container as a value, together with the
    place (`Slot`) where that container sits in the frame below it. Popping a
    frame writes its container back into that place, so the tree Python has
    built so far is `Close` of the stack. */
module YamlStack {
  import opened Assoc
  import opened Values

  /** Where a frame's container sits in its parent: the root has no parent, a
      container opened by `key:` sits under that key, a dict opened by a
      `- key: value` item is the last item of its list. */
  datatype Slot = Root | AtKey(key: string) | AtLast

  datatype Frame = Frame(indent: int, node: Value, slot: Slot)

  type Stack = seq<Frame>

  predicate Container(v: Value)
  {
    v.Map? || v.List?
  }

  function Innermost(st: Stack): Frame
    requires |st| > 0
  {
    st[|st| - 1]
  }

  /** `child` sits on top of `parent`: it is indented deeper and its slot exists in the parent. */
  predicate Linked(parent: Frame, child: Frame)
  {
    && parent.indent < child.indent
    && Container(child.node)
    && match child.slot
       case Root => false
       case AtKey(k) => parent.node.Map? && HasKey(parent.node.entries, k)
       case AtLast => parent.node.List? && parent.node.items != []
  }

  /** The stack Python keeps: the root dict at indent -1 at the bottom, indents
      strictly increasing upwards, each container in its parent's slot, and every
      dict free of repeated keys. */
  ghost predicate WellFormed(st: Stack)
  {
    && |st| >= 1
    && st[0].indent == -1 && st[0].slot == Root && st[0].node.Map?
    && (forall j :: 1 <= j < |st| ==> Linked(st[j - 1], st[j]))
    && (forall j :: 0 <= j < |st| ==> WellKeyed(st[j].node))
  }

  /** The stack Python starts from: `[(-1, root)]` with an empty root. */
  const Initial: Stack := [Frame(-1, Map([]), Root)]

  lemma InitialWellFormed()
    ensures WellFormed(Initial) && |Initial| == 1
  {
  }

  /** Writing `child` into `slot` of `parent`. */
  function Attach(parent: Value, slot: Slot, child: Value): (r: Value)
    requires slot.AtKey? ==> parent.Map?
    requires slot.AtLast? ==> parent.List? && parent.items != []
    requires slot != Root
    ensures r.Map? == parent.Map? && r.List? == parent.List?
    ensures slot.AtKey? ==> r.entries == Put(parent.entries, slot.key, child)
    ensures slot.AtLast? ==> r.items == parent.items[..|parent.items| - 1] + [child]
  {
    match slot
    case AtKey(k) => Map(Put(parent.entries, k, child))
    case AtLast => List(parent.items[..|parent.items| - 1] + [child])
  }

  lemma AttachWellKeyed(parent: Value, slot: Slot, child: Value)
    requires slot.AtKey? ==> parent.Map?
    requires slot.AtLast? ==> parent.List? && parent.items != []
    requires slot != Root
    requires WellKeyed(parent) && WellKeyed(child)
    ensures WellKeyed(Attach(parent, slot, child))
  {
    if slot.AtKey? {
      PutWellKeyed(parent.entries, slot.key, child);
    } else {
      var r := Attach(parent, slot, child);
      forall i | 0 <= i < |r.items|
        ensures WellKeyed(r.items[i])
      {
        if i < |parent.items| - 1 {
          assert r.items[i] == parent.items[i];
        }
      }
    }
  }

  /** Every frame holds a dict or a list. */
  lemma InnermostIsContainer(st: Stack)
    requires WellFormed(st)
    ensures Container(Innermost(st).node)
  {
    if |st| > 1 {
      assert Linked(st[|st| - 2], st[|st| - 1]);
    }
  }

  /** `stack.pop()`: the innermost container is written back into its parent. */
  function Pop(st: Stack): (r: Stack)
    requires WellFormed(st) && |st| > 1
    ensures WellFormed(r) && |r| == |st| - 1
    ensures forall j :: 0 <= j < |r| - 1 ==> r[j] == st[j]
    ensures Innermost(r).indent == st[|st| - 2].indent
  {
    var parent := st[|st| - 2];
    var child := Innermost(st);
    assert Linked(parent, child);
    AttachWellKeyed(parent.node, child.slot, child.node);
    var r := st[..|st| - 2] + [parent.(node := Attach(parent.node, child.slot, child.node))];
    assert forall j :: 0 <= j < |r| - 1 ==> r[j] == st[j];
    r
  }

  /** The tree built so far: what Python's `root` holds, all frames written back. */
  function Close(st: Stack): (r: Value)
    requires WellFormed(st)
    ensures r.Map? && WellKeyed(r)
    decreases |st|
  {
    if |st| == 1 then st[0].node else Close(Pop(st))
  }

  /** `while len(stack) > 1 and stack[-1][0] >= indent: stack.pop()`. The frames
      that stay are exactly those indented less than `indent` (and the root). */
  function PopWhile(st: Stack, indent: int): (r: Stack)
    requires WellFormed(st)
    ensures WellFormed(r) && |r| <= |st|
    ensures |r| == 1 || Innermost(r).indent < indent
    decreases |st|
  {
    if |st| > 1 && Innermost(st).indent >= indent then PopWhile(Pop(st), indent) else st
  }

  /** `PopWhile` removes frames from the top only, and only those indented at least `indent`. */
  lemma {:induction false} PopWhileFrames(st: Stack, indent: int)
    requires WellFormed(st)
    ensures var r := PopWhile(st, indent);
      && (forall j :: 0 <= j < |r| - 1 ==> r[j] == st[j])
      && (forall j :: 0 <= j < |r| ==> r[j].indent == st[j].indent)
      && (|r| < |st| ==> st[|r|].indent >= indent)
    decreases |st|
  {
    if |st| > 1 && Innermost(st).indent >= indent {
      var p := Pop(st);
      PopWhileFrames(p, indent);
      assert forall j :: 0 <= j < |p| ==> p[j].indent == st[j].indent;
    }
  }

  /** Popping never changes the tree built so far. */
  lemma {:induction false} PopWhileKeepsTree(st: Stack, indent: int)
    requires WellFormed(st)
    ensures Close(PopWhile(st, indent)) == Close(st)
    decreases |st|
  {
    if |st| > 1 && Innermost(st).indent >= indent {
      PopWhileKeepsTree(Pop(st), indent);
    }
  }

  /** Every frame above the root is indented at least as deep as the root's children. */
  lemma {:induction false} IndentsAboveRoot(st: Stack, j: nat)
    requires WellFormed(st) && 1 <= j < |st|
    ensures st[j].indent >= 0
    decreases j
  {
    assert Linked(st[j - 1], st[j]);
    if j > 1 {
      IndentsAboveRoot(st, j - 1);
    }
  }

  /** A line at indent 0 pops everything down to the root. */
  lemma PopToRoot(st: Stack)
    requires WellFormed(st)
    ensures |PopWhile(st, 0)| == 1
  {
    var r := PopWhile(st, 0);
    if |r| > 1 {
      IndentsAboveRoot(r, |r| - 1);
    }
  }

  /** `parent[key] = v` on the innermost container, a dict. */
  function SetKey(st: Stack, key: string, v: Value): (r: Stack)
    requires WellFormed(st) && Innermost(st).node.Map? && WellKeyed(v)
    ensures WellFormed(r) && |r| == |st|
    ensures r[..|r| - 1] == st[..|st| - 1]
    ensures Innermost(r) == Innermost(st).(node := Map(Put(Innermost(st).node.entries, key, v)))
  {
    var f := Innermost(st);
    PutWellKeyed(f.node.entries, key, v);
    var r := st[..|st| - 1] + [f.(node := Map(Put(f.node.entries, key, v)))];
    assert forall j :: 0 <= j < |r| - 1 ==> r[j] == st[j];
    assert |r| > 1 ==> Linked(st[|st| - 2], Innermost(st));
    r
  }

  /** `parent.append(v)` on the innermost container, a list. */
  function Append(st: Stack, v: Value): (r: Stack)
    requires WellFormed(st) && Innermost(st).node.List? && WellKeyed(v)
    ensures WellFormed(r) && |r| == |st|
    ensures r[..|r| - 1] == st[..|st| - 1]
    ensures Innermost(r) == Innermost(st).(node := List(Innermost(st).node.items + [v]))
  {
    var f := Innermost(st);
    var items := f.node.items + [v];
    assert forall i :: 0 <= i < |items| ==> WellKeyed(items[i]) by {
      forall i | 0 <= i < |items| ensures WellKeyed(items[i]) {
        if i < |f.node.items| {
          assert items[i] == f.node.items[i];
        }
      }
    }
    var r := st[..|st| - 1] + [f.(node := List(items))];
    assert forall j :: 0 <= j < |r| - 1 ==> r[j] == st[j];
    assert |r| > 1 ==> Linked(st[|st| - 2], Innermost(st));
    r
  }

  /** `stack.append((indent, container))`. */
  function Push(st: Stack, f: Frame): (r: Stack)
    requires WellFormed(st) && Linked(Innermost(st), f) && WellKeyed(f.node)
    ensures WellFormed(r) && r == st + [f]
  {
    st + [f]
  }
}
