/**
 Removing a key just inserted: the text comes back character for character, in a flow
 collection that was not empty, and in a nested block mapping exactly when the line
 after the mapping's last starts with the document's own line break.
 */
module YamlUndo {
  import opened Text
  import opened YamlValue
  import opened YamlEmit
  import opened YamlBlock
  import opened YamlTree
  import opened YamlBuild
  import opened YamlEdit
  import opened YamlMarks
  import opened YamlSplice
  import opened YamlSplicePrints
  import opened YamlSetPrints
  import opened YamlFits
  import opened YamlRemove
  import opened YamlRemovePrints
  import opened YamlRemoveWalk
  import opened YamlRemoveFits
  import opened YamlBreaks

  /** The path ends in a new key of a flow mapping with keys, or of a block mapping below the root. */
  predicate NewKey(k: Kid, path: seq<Part>)
    requires path != []
    decreases |path|
  {
    if |path| == 1 then
      && k.node.Coll? && k.node.isMap && path[0].Name? && FindName(k.node.kids, path[0].name) == Ok(None)
      && (if k.node.flow then k.node.kids != [] else !k.mark.Bare?)
    else
      match StepKid(k.node, path[0])
      case Ok(Some(i)) => NewKey(k.node.kids[i], path[1..])
      case _ => false
  }

  /** The mapping that takes the new key is in flow style. */
  predicate IntoFlow(k: Kid, path: seq<Part>)
    requires path != [] && NewKey(k, path)
    decreases |path|
  {
    if |path| == 1 then k.node.flow
    else IntoFlow(k.node.kids[StepKid(k.node, path[0]).value.value], path[1..])
  }

  /** The lead inside `k` that follows the mapping the path reaches; none when it is `k`'s last. */
  function Next(k: Kid, path: seq<Part>): seq<Br>
    requires path != [] && NewKey(k, path)
    decreases |path|
  {
    if |path| == 1 then []
    else
      var i := StepKid(k.node, path[0]).value.value;
      var inner := Next(k.node.kids[i], path[1..]);
      if inner != [] then inner else if i + 1 < |k.node.kids| then k.node.kids[i + 1].lead else []
  }

  /** Keys that carry the same marks are found at the same place. */
  lemma {:induction false} SameNames(a: seq<Kid>, b: seq<Kid>, part: string)
    requires |a| == |b| && forall i | 0 <= i < |a| :: a[i].mark == b[i].mark
    ensures FindName(a, part) == FindName(b, part)
  {
    if a == [] {
    } else {
      SameNames(a[..|a| - 1], b[..|b| - 1], part);
    }
  }

  lemma SameStepKid(n: Node, i: nat, child: Kid, part: Part)
    requires n.Coll? && i < |n.kids| && child.mark == n.kids[i].mark
    ensures StepKid(n.(kids := n.kids[i := child]), part) == StepKid(n, part)
  {
    hide FindName;
    if n.isMap && part.Name? { SameNames(n.kids, n.kids[i := child], part.name); }
  }

  lemma NewNameLast(kids: seq<Kid>, kid: Kid, part: string)
    requires FindName(kids, part) == Ok(None) && kid.mark.Key? && kid.mark.name == part
    ensures FindName(kids + [kid], part) == Ok(Some(|kids|))
  {
    assert (kids + [kid])[..|kids|] == kids;
  }

  function NewChild(k: Kid, key: string, value: Value, flow: bool, nl: string): Kid
    requires k.node.Coll?
  {
    if k.node.flow then FlowEntry(false, key, value)
    else EntryKid(key, value, k.node.col, flow, nl, [Br(nl, k.node.col, "")], "")
  }

  lemma Inserted(k: Kid, inFlow: bool, col: nat, path: seq<Part>, value: Value, flow: bool, nl: string)
    requires path != [] && |path| == 1 && NewKey(k, path)
    ensures var kid := NewChild(k, path[0].name, value, flow, nl);
            && kid.mark.Key? && kid.mark.name == path[0].name
            && (if k.node.flow then kid.sep != "" else kid.lead == [Br(nl, k.node.col, "")])
            && LastLiteral(kid.node) == None
            && EditKid(k, inFlow, col, path, value, flow, nl) == Ok(WithKids(k, k.node.kids + [kid]))
  {
    hide FlowNode, BlockNode, FindName, LastLiteral;
    assert path[1..] == [];
    assert Nested([], value) == Ok(value);
    FlowNodePlain(value);
    if NonemptyCollection(value) { BlockLast(value, k.node.col + 2, nl); }
    assert [] + [Br(nl, k.node.col, "")] == [Br(nl, k.node.col, "")];
  }

  lemma BlockLast(v: Value, col: nat, nl: string)
    requires NonemptyCollection(v)
    ensures LastLiteral(BlockNode(v, col, nl, "")) == None
  {
    hide BlockNode, LastLiteral, NodeOk, BlockKeys;
    SpaceBlank();
    assert LineBreak("\n");
    BlockNodeOk(v, col, "\n", "");
    BlockLastAny(v, col, nl);
  }

  lemma {:induction false} BlockLastAny(v: Value, col: nat, nl: string)
    requires NonemptyCollection(v)
    ensures LastLiteral(BlockNode(v, col, nl, "")) == None
    decreases v
  {
    hide FlowNode, EntryKids, ItemKids, KeyText, BlockNode;
    if v.Dict? {
      var last := v.pairs[|v.pairs| - 1];
      LastOfBlock(v, col, nl);
      FlowNodePlain(last.val);
      if NonemptyCollection(last.val) { BlockLastAny(last.val, col + 2, nl); }
    } else {
      var last := v.items[|v.items| - 1];
      LastOfBlock(v, col, nl);
      FlowNodePlain(last);
      if last.Dict? && last.pairs != [] { BlockLastAny(last, col + 2, nl); }
    }
  }

  lemma LastOfBlock(v: Value, col: nat, nl: string)
    requires NonemptyCollection(v)
    ensures LastLiteral(BlockNode(v, col, nl, ""))
            == LastLiteral(if v.Dict? then
                             var p, n := v.pairs, |v.pairs| - 1;
                             EntryKid(p[n].key, p[n].val, col, false, nl, Lead(n == 0, nl, col), "").node
                           else
                             var i, n := v.items, |v.items| - 1;
                             ItemKid(i[n], col, nl, Lead(n == 0, nl, col), "").node)
  {
    hide EntryKid, ItemKid, Lead;
  }

  /** The new key's own removal. */
  lemma RemoveInserted(k: Kid, root: bool, inFlow: bool, col: nat, path: seq<Part>, value: Value, flow: bool,
          nl: string, nl': string)
    requires NodeOk(k.node) && path != [] && |path| == 1 && NewKey(k, path)
    ensures var e := EditKid(k, inFlow, col, path, value, flow, nl);
            e.Ok? && RemoveIn(e.value, root, inFlow, col, path, nl')
                     == Ok(Removed(k, [], if k.node.flow then None else Some([Br(nl, k.node.col, "")])))
  {
    hide NodeOk, FindName, NewChild, EditKid, Merge, ReplaceKid;
    Inserted(k, inFlow, col, path, value, flow, nl);
    var n := k.node;
    var kid := NewChild(k, path[0].name, value, flow, nl);
    NewNameLast(n.kids, kid, path[0].name);
    if !n.flow { NodeClosed(n); }
    assert (n.kids + [kid])[..|n.kids|] == n.kids;
    assert n.kids != [];
  }

  /**
   The tree after the insertion and the removal: the same, but for the line break that
   follows a block mapping, which becomes `nl`.
   */
  lemma {:induction false} Undone(k: Kid, root: bool, inFlow: bool, col: nat, path: seq<Part>, value: Value, flow: bool,
          nl: string, nl': string)
    requires NodeOk(k.node) && path != [] && NewKey(k, path)
    ensures var e := EditKid(k, inFlow, col, path, value, flow, nl);
            e.Ok? && SameStart(k, e.value) && RemoveIn(e.value, root, inFlow, col, path, nl').Ok?
    ensures var r := RemoveIn(EditKid(k, inFlow, col, path, value, flow, nl).value, root, inFlow, col, path, nl').value;
            && r.above == [] && SameStart(k, r.kid)
            && (if IntoFlow(k, path) then r == Removed(k, [], None)
                else if Next(k, path) == [] then r.kid == k && exists c: nat :: r.below == Some([Br(nl, c, "")])
                else r.below == None && (r.kid == k <==> Next(k, path)[0].nl == nl))
    decreases |path|
  {
    hide NodeOk, FindName, StepKid, RemoveAt, FinishKid, Merge, ReplaceKid, Lift, PrintNode;
    if |path| == 1 {
      RemoveInserted(k, root, inFlow, col, path, value, flow, nl, nl');
      MarkKept(k, inFlow, col, path, value, flow, nl);
    } else {
      var n, i := k.node, StepKid(k.node, path[0]).value.value;
      ChildrenOk(n, i);
      Undone(n.kids[i], false, n.flow, n.col, path[1..], value, flow, nl, nl');
      var child := EditKid(n.kids[i], n.flow, n.col, path[1..], value, flow, nl).value;
      SameStepKid(n, i, child, path[0]);
      var e := k.(node := n.(kids := n.kids[i := child]));
      assert EditKid(k, inFlow, col, path, value, flow, nl) == Ok(e);
      var r := RemoveIn(child, false, n.flow, n.col, path[1..], nl').value;
      LeadsNext(n, i);
      if n.flow { FlowAllTheWay(n.kids[i], path[1..]); }
      LiftUndone(k, e, root, i, r, nl);
    }
  }

  lemma LeadsNext(n: Node, i: nat)
    requires n.Coll? && NodeOk(n) && i < |n.kids|
    ensures n.flow ==> NodeOk(n.kids[i].node) && !IsBlockNode(n.kids[i].node)
    ensures !n.flow && i + 1 < |n.kids| ==> n.kids[i + 1].lead != []
  {
    hide NodeOk, FlowKidOk;
    LeadsLater(n);
    KidsIn(n, i);
    if n.flow { PlainFlowKid(n.kids[i], i == 0, n.isMap); }
  }

  /** Below a flow collection every collection is in flow style. */
  lemma {:induction false} FlowAllTheWay(k: Kid, path: seq<Part>)
    requires NodeOk(k.node) && !IsBlockNode(k.node) && path != [] && NewKey(k, path)
    ensures IntoFlow(k, path)
    decreases |path|
  {
    hide NodeOk, FindName, StepKid;
    if |path| > 1 {
      var i := StepKid(k.node, path[0]).value.value;
      LeadsNext(k.node, i);
      FlowAllTheWay(k.node.kids[i], path[1..]);
    }
  }

  lemma LiftUndone(k: Kid, e: Kid, root: bool, i: nat, r: Removed, nl: string)
    requires k.node.Coll? && i < |k.node.kids| && r.above == []
    requires e.node.Coll? && |e.node.kids| == |k.node.kids|
             && e == k.(node := k.node.(kids := k.node.kids[i := e.node.kids[i]]))
    requires r.below.Some? ==> exists c: nat :: r.below == Some([Br(nl, c, "")])
    requires r.below.Some? && i + 1 < |k.node.kids| ==> k.node.kids[i + 1].lead != []
    ensures var l := Lift(e, root, i, r);
            && l.above == [] && SameStart(k, l.kid)
            && l.below == (if i + 1 == |k.node.kids| then r.below else None)
            && (l.kid == k <==> r.kid == k.node.kids[i]
                                && (r.below.Some? && i + 1 < |k.node.kids| ==> k.node.kids[i + 1].lead[0].nl == nl))
  {
    hide Merge;
    var kids := k.node.kids;
    var l := Lift(e, root, i, r);
    assert l.kid.node.kids[i] == r.kid;
    if r.below.Some? && i + 1 < |kids| {
      var c: nat :| r.below == Some([Br(nl, c, "")]);
      MergeOne(nl, c, kids[i + 1].lead);
      assert l.kid.node.kids[i + 1].lead == Merge(r.below.value, kids[i + 1].lead);
      if l.kid == k { assert l.kid.node.kids[i + 1].lead == kids[i + 1].lead; }
      if r.kid == kids[i] && kids[i + 1].lead[0].nl == nl {
        assert l.kid.node.kids == kids;
      }
    } else if r.kid == kids[i] {
      assert l.kid.node.kids == kids;
    }
  }

  lemma MergeOne(nl: string, c: nat, lead: seq<Br>)
    requires lead != []
    ensures Merge([Br(nl, c, "")], lead) == lead <==> lead[0].nl == nl
  {
    var m := Merge([Br(nl, c, "")], lead);
    assert m == [Br(nl, lead[0].pad, lead[0].note)] + lead[1..];
    assert m[0].nl == nl;
    if lead[0].nl == nl { assert m[0] == lead[0]; assert lead == [lead[0]] + lead[1..]; }
  }

  /** The lead after the mapping, in the whole document. */
  function NextInDoc(d: Doc, path: seq<Part>): seq<Br>
    requires path != [] && NewKey(d.root, path)
  {
    if Next(d.root, path) != [] then Next(d.root, path) else d.end
  }

  /** Inserting the key and removing it gives the same document exactly when the next line break is the file's own. */
  lemma UndoneDoc(d: Doc, path: seq<Part>, value: Value, flow: bool)
    requires DocOk(d) && path != [] && NewKey(d.root, path) && EditDoc(d, path, value, flow).Ok?
    ensures var e := EditDoc(d, path, value, flow).value;
            var next, nl := NextInDoc(d, path), Newline(PrintDoc(d));
            && (!HasUnicodeBreak(PrintDoc(e)) ==> RemoveDoc(e, path).Ok?)
            && (RemoveDoc(e, path).Ok? ==>
                  (RemoveDoc(e, path) == Ok(d) <==> IntoFlow(d.root, path) || (next != [] && next[0].nl == nl)))
  {
    hide NodeOk, RootOk, EditKid, RemoveIn, Next, NewKey, IntoFlow, PrintDoc, Newline, HasUnicodeBreak, Merge;
    var nl := Newline(PrintDoc(d));
    var e := EditDoc(d, path, value, flow).value;
    Undone(d.root, true, false, 0, path, value, flow, nl, Newline(PrintDoc(e)));
    if !IntoFlow(d.root, path) && Next(d.root, path) == [] {
      var r := RemoveIn(e.root, true, false, 0, path, Newline(PrintDoc(e))).value;
      var c: nat :| r.below == Some([Br(nl, c, "")]);
      if d.end != [] { MergeOne(nl, c, d.end); } else { assert Merge([Br(nl, c, "")], []) != []; }
    }
  }

  lemma EntryKidMark(key: string, v: Value, col: nat, flow: bool, nl: string, lead: seq<Br>, tail: string)
    ensures var k := EntryKid(key, v, col, flow, nl, lead, tail); k.mark.Key? && k.mark.name == key && k.lead == lead
  {
    hide FlowNode, BlockNode;
  }

  /** A new top-level key gets a blank line before it, and its removal leaves that blank line behind. */
  lemma TopKeyLeavesBlank(d: Doc, name: string, value: Value, flow: bool)
    requires DocOk(d) && d.root.node.Coll? && !d.root.node.flow && d.root.node.isMap
    requires FindName(d.root.node.kids, name) == Ok(None) && EditDoc(d, [Name(name)], value, flow).Ok?
    requires !HasUnicodeBreak(PrintDoc(EditDoc(d, [Name(name)], value, flow).value))
    ensures var nl, e := Newline(PrintDoc(d)), EditDoc(d, [Name(name)], value, flow).value;
            && RemoveDoc(e, [Name(name)])
               == Ok(d.(end := [Br(nl, 0, "")] + if d.end == [] then [Br(nl, 0, "")]
                  else [Br(nl, d.end[0].pad, d.end[0].note)] + d.end[1..]))
            && RemoveDoc(e, [Name(name)]) != Ok(d)
  {
    hide NodeOk, FindName, EntryKid, PrintDoc, Newline, HasUnicodeBreak;
    var nl, n, path := Newline(PrintDoc(d)), d.root.node, [Name(name)];
    var kid := EntryKid(name, value, n.col, flow, nl, [Br(nl, 0, "")] + [Br(nl, n.col, "")], "");
    TopKey(d, name, value, flow);
    EntryKidMark(name, value, n.col, flow, nl, [Br(nl, 0, "")] + [Br(nl, n.col, "")], "");
    NewNameLast(n.kids, kid, name);
    NodeClosed(n);
    assert (n.kids + [kid])[..|n.kids|] == n.kids;
    assert path[1..] == [];
  }

  lemma TopKey(d: Doc, name: string, value: Value, flow: bool)
    requires DocOk(d) && d.root.node.Coll? && !d.root.node.flow && d.root.node.isMap
    requires FindName(d.root.node.kids, name) == Ok(None) && EditDoc(d, [Name(name)], value, flow).Ok?
    ensures var n, nl := d.root.node, Newline(PrintDoc(d));
            EditDoc(d, [Name(name)], value, flow).value.root
            == WithKids(d.root,
               n.kids + [EntryKid(name, value, n.col, flow, nl, [Br(nl, 0, "")] + [Br(nl, n.col, "")], "")])
  {
    hide NodeOk, FindName, EntryKid, PrintDoc, Newline, HasUnicodeBreak;
    assert [Name(name)][1..] == [];
    assert Nested([], value) == Ok(value);
  }

  /**
   `remove_value` undoes `set_value`. A new key put in a nonempty flow mapping, or in a block
   mapping below the root when the next line starts with the document's line break (so a file
   that ends with one), is removed again to the very same text, with whatever marks the
   composer reports for either text. The new key must land: its own keys short enough to be
   read, and no comment against it.
   */
  lemma RemoveUndoesInsert(d: Doc, m: CNode, path: seq<Part>, value: Value, flow: bool, m': CNode)
    requires DocOk(d) && Composed(PrintDoc(d), d.root.node, |KidHead(d.root)|, m)
    requires path != [] && NewKey(d.root, path) && DocFits(d, path, value, flow)
    requires var next := NextInDoc(d, path);
             IntoFlow(d.root, path) || (next != [] && next[0].nl == Newline(PrintDoc(d)))
    requires SetValue(PrintDoc(d), Some(m), path, value, flow).Ok? && EditDoc(d, path, value, flow).Ok?
    requires var e := EditDoc(d, path, value, flow).value;
             Composed(PrintDoc(e), e.root.node, |KidHead(e.root)|, m')
    ensures RemoveValue(SetValue(PrintDoc(d), Some(m), path, value, flow).value, Some(m'), path) == Ok(PrintDoc(d))
  {
    hide *;
    var e := EditDoc(d, path, value, flow).value;
    SetValueSplices(d, m, path, value, flow);
    SetKeepsBreaks(PrintDoc(d), Some(m), path, value, flow);
    UndoneDoc(d, path, value, flow);
    EditDocOk(d, path, value, flow);
    RemoveValueSplices(e, m', path);
  }
}
