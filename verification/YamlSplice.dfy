/**
 Setting a value in the tree: the tree each splice prints, step for step with
 `_replace`, `_append` and `_insert`.
 */
module YamlSplice {
  import opened Text
  import opened YamlValue
  import opened YamlEmit
  import opened YamlBlock
  import opened YamlTree
  import opened YamlBuild
  import opened YamlEdit

  /** The lines of a literal block that holds `text`. */
  function LiteralBody(text: string, indent: nat, nl: string): seq<Br> {
    Broken(SplitLines(Body(text)), indent, nl)
  }

  function Broken(raw: seq<string>, indent: nat, nl: string): seq<Br> {
    seq(|raw|, i requires 0 <= i < |raw| => Br(nl, if raw[i] == "" then 0 else indent, raw[i]))
  }

  function LiteralNode(note: string, text: string, indent: nat, nl: string): Node {
    Literal(EndsWith(text, "\n"), note, indent, LiteralBody(text, indent, nl))
  }

  /** The new value is written in block style. */
  predicate AsBlock(k: Kid, inFlow: bool, value: Value, flow: bool) {
    && NonemptyCollection(value) && !flow && !inFlow
    && !(k.node.Coll? && k.node.flow && k.node.kids != [])
  }

  /**
   A mapping written after a dash: its first key where the old value started, at
   `start`, the others two columns right of the dash.
   */
  function ItemMapping(value: Value, start: nat, dash: nat, nl: string, tail: string): Node
    requires value.Dict?
  {
    Coll(false, true, if |value.pairs| == 1 then start else dash + 2,
         EntryKids(value.pairs, dash + 2, nl, true, tail), "")
  }

  function ReplaceKid(k: Kid, inFlow: bool, col: nat, value: Value, flow: bool, nl: string): Kid {
    var tail := if IsBlockNode(k.node) then "" else k.tail;
    if !k.mark.Key? then
      if AsBlock(k, inFlow, value, flow) && value.Dict? then
        k.(node := ItemMapping(value, StartCol(k, col), col, nl, tail), tail := "")
      else k.(node := FlowNode(value), tail := tail)
    else if k.node.Literal? && value.Str? && BlockScalar(value.text, col + 2).Some? then
      k.(node := LiteralNode(k.node.note, value.text, col + 2, nl))
    else if !AsBlock(k, inFlow, value, flow) then
      k.(gap := " ", drop := [], node := FlowNode(value), tail := tail)
    else
      var indent := if IsBlockNode(k.node) && k.node.Coll? then k.node.col else col + 2;
      k.(gap := if IsBlockNode(k.node) then "" else k.tail, drop := [Br(nl, indent, "")],
         node := BlockNode(value, indent, nl, ""), tail := "")
  }

  /** A block collection in place of a key's empty flow one: its line keeps only the colon. */
  function Opened(k: Kid, col: nat, node: Node, nl: string): Kid {
    k.(gap := "", drop := [Br(nl, col + 2, "")], node := node, tail := "")
  }

  function AppendKid(k: Kid, inFlow: bool, col: nat, value: Value, flow: bool, nl: string): Kid
    requires k.node.Coll?
  {
    var n := k.node;
    if !n.flow then k.(node := n.(kids := n.kids + [ItemKid(value, n.col, nl, [Br(nl, n.col, "")], "")]))
    else if n.kids != [] then k.(node := n.(kids := n.kids + [FlowItem(false, value)]))
    else if k.mark.Key? && !flow && !inFlow then Opened(k, col, BlockNode(List([value]), col + 2, nl, k.tail), nl)
    else k.(node := FlowNode(List([value])))
  }

  function InsertKid(k: Kid, inFlow: bool, col: nat, key: string, value: Value, flow: bool, nl: string): Kid
    requires k.node.Coll?
  {
    var n := k.node;
    if !n.flow then
      var lead := (if k.mark.Bare? then [Br(nl, 0, "")] else []) + [Br(nl, n.col, "")];
      k.(node := n.(kids := n.kids + [EntryKid(key, value, n.col, flow, nl, lead, "")]))
    else if n.kids != [] then k.(node := n.(kids := n.kids + [FlowEntry(false, key, value)]))
    else if k.mark.Key? && !inFlow then
      Opened(k, col, Coll(false, true, col + 2, [EntryKid(key, value, col + 2, flow, nl, [], k.tail)], ""), nl)
    else k.(node := FlowNode(Dict([Pair(key, value)])))
  }

  /** The only child named `part`; an error when two are. */
  function FindName(kids: seq<Kid>, part: string): (r: Result<Option<nat>, EditError>)
    ensures r.Ok? && r.value.Some? ==> r.value.value < |kids| && kids[r.value.value].mark.Key?
                                       && kids[r.value.value].mark.name == part
  {
    if kids == [] then Ok(None)
    else
      var last := |kids| - 1;
      match FindName(kids[..last], part)
      case Err(e) => Err(e)
      case Ok(found) =>
        if !kids[last].mark.Key? || kids[last].mark.name != part then Ok(found)
        else if found.Some? then Err(ListedTwice)
        else Ok(Some(last))
  }

  function StepKid(n: Node, part: Part): (r: Result<Option<nat>, EditError>)
    ensures r.Ok? && r.value.Some? ==> n.Coll? && r.value.value < |n.kids|
  {
    if !n.Coll? then Ok(None)
    else if n.isMap && part.Name? then FindName(n.kids, part.name)
    else if !n.isMap && part.Index? && 0 <= part.index < |n.kids| then Ok(Some(part.index))
    else Ok(None)
  }

  /** The edit where the walk stops, with `rest` of the path left. */
  function FinishKid(k: Kid, inFlow: bool, col: nat, rest: seq<Part>, value: Value, flow: bool, nl: string)
    : Result<Kid, EditError>
    requires rest != []
  {
    var n := k.node;
    if n.Coll? && !n.isMap && rest[0].Index? then
      if rest[0].index != |n.kids| then Err(NoSuchItem)
      else
        match Nested(rest[1..], value)
        case Err(e) => Err(e)
        case Ok(v) => Ok(AppendKid(k, inFlow, col, v, flow, nl))
    else if n.Coll? && n.isMap && rest[0].Name? then
      match Nested(rest[1..], value)
      case Err(e) => Err(e)
      case Ok(v) => Ok(InsertKid(k, inFlow, col, rest[0].name, v, flow, nl))
    else if n.Scalar? && n.val.Null? then
      match Nested(rest, value)
      case Err(e) => Err(e)
      case Ok(v) => Ok(ReplaceKid(k, inFlow, col, v, flow, nl))
    else Err(NoParent)
  }

  /** `set_value` on the tree, from the child the path has reached. */
  function EditKid(k: Kid, inFlow: bool, col: nat, path: seq<Part>, value: Value, flow: bool, nl: string)
    : Result<Kid, EditError>
    decreases |path|
  {
    if path == [] then Ok(ReplaceKid(k, inFlow, col, value, flow, nl))
    else
      match StepKid(k.node, path[0])
      case Err(e) => Err(e)
      case Ok(None) => FinishKid(k, inFlow, col, path, value, flow, nl)
      case Ok(Some(i)) =>
        match EditKid(k.node.kids[i], k.node.flow, k.node.col, path[1..], value, flow, nl)
        case Err(e) => Err(e)
        case Ok(child) => Ok(k.(node := k.node.(kids := k.node.kids[i := child])))
  }

  /** `set_value` on a document: the document whose printing is the edited text. */
  function EditDoc(d: Doc, path: seq<Part>, value: Value, flow: bool): Result<Doc, EditError> {
    if path == [] then Err(NeedsKey)
    else if HasUnicodeBreak(PrintDoc(d)) then Err(UnicodeBreak)
    else if !(d.root.node.Coll? && d.root.node.isMap) then Err(NotMapping)
    else
      match EditKid(d.root, false, 0, path, value, flow, Newline(PrintDoc(d)))
      case Err(e) => Err(e)
      case Ok(root) => Ok(d.(root := root))
  }

  // ------------------------------------------------------------------ values

  lemma ReplaceValue(k: Kid, inFlow: bool, col: nat, value: Value, flow: bool, nl: string)
    ensures var e := ReplaceKid(k, inFlow, col, value, flow, nl); NodeValue(e.node) == value && Spelled(e.node)
  {
    hide FlowNode, LiteralNode, BlockScalar;
    FlowNodeValue(value);
    if k.node.Literal? && value.Str? && BlockScalar(value.text, col + 2).Some? {
      LiteralValue(k.node.note, value.text, col + 2, nl);
    }
    if NonemptyCollection(value) {
      var indent := if IsBlockNode(k.node) && k.node.Coll? then k.node.col else col + 2;
      BlockNodeValue(value, indent, nl, "");
      var tail := if IsBlockNode(k.node) then "" else k.tail;
      if value.Dict? {
        var start := StartCol(k, col);
        var n := ItemMapping(value, start, col, nl, tail);
        assert NodeValue(n) == value && Spelled(n) by {
          hide EntryKids;
          BlockNodeValue(value, col + 2, nl, tail);
          assert NodeValue(BlockNode(value, col + 2, nl, tail)) == NodeValue(ItemMapping(value, start, col, nl, tail));
        }
      }
    }
  }

  lemma LiteralLines(text: string, indent: nat, nl: string)
    requires BlockScalar(text, indent).Some?
    ensures Lines(LiteralBody(text, indent, nl)) == BlockScalar(text, indent).value[1..]
    ensures BlockScalar(text, indent).value[0] == if EndsWith(text, "\n") then "|" else "|-"
  {
    hide Blank, SplitLines, Body, EndsWith;
    var raw := SplitLines(Body(text));
    assert Lines(Broken(raw, indent, nl)) == Indented(raw, indent) by {
      hide Lines, Spaces;
      forall i | 0 <= i < |raw| ensures Lines(Broken(raw, indent, nl))[i] == Indented(raw, indent)[i] {
        assert raw[i] == "" ==> Spaces(0) + raw[i] == "";
      }
    }
    assert BlockScalar(text, indent).value[1..] == Indented(raw, indent);
  }

  lemma LiteralValue(note: string, text: string, indent: nat, nl: string)
    requires BlockScalar(text, indent).Some?
    ensures var n := LiteralNode(note, text, indent, nl); NodeValue(n) == Str(text) && Spelled(n)
  {
    hide ReadBlock, BlockIndent, LiteralBody, BlockScalar, Lines;
    // The literal block written for a text reads back as that text.
    assert BlockIndent(Lines(LiteralBody(text, indent, nl))) == Some(indent)
           && ReadBlock(EndsWith(text, "\n"), Lines(LiteralBody(text, indent, nl))) == Some(text) by {
      hide ReadBlock, LiteralBody, BlockScalar, Lines;
      LiteralLines(text, indent, nl);
      BlockScalarReads(text, indent);
    }
  }

  /** Replacing one child's value puts it in the collection's value at the same place. */
  lemma SetChildValue(n: Node, i: nat, child: Kid, part: Part)
    requires n.Coll? && NodeOk(n) && i < |n.kids| && StepKid(n, part) == Ok(Some(i))
    requires child.mark == n.kids[i].mark
    ensures Child(NodeValue(n), part) == Some(i)
    ensures At(NodeValue(n), i) == NodeValue(n.kids[i].node)
    ensures Put(NodeValue(n), part, NodeValue(child.node)) == Some(NodeValue(n.(kids := n.kids[i := child])))
  {
    hide FindName, NodeOk, Find;
    if n.isMap {
      MapKeys(n);
      FindNameIsFind(n, part.name);
      assert NodeValue(n).pairs[i := Pair(part.name, NodeValue(child.node))]
             == NodeValue(n.(kids := n.kids[i := child])).pairs;
    } else {
      assert NodeValue(n).items[i := NodeValue(child.node)] == NodeValue(n.(kids := n.kids[i := child])).items;
    }
  }

  lemma SetChildSpelled(n: Node, i: nat, child: Kid)
    requires n.Coll? && i < |n.kids| && child.mark == n.kids[i].mark && Spelled(n)
    ensures Spelled(n.kids[i].node) && (Spelled(child.node) ==> Spelled(n.(kids := n.kids[i := child])))
  {
    hide KeySpelled;
  }

  lemma MapKeys(n: Node)
    requires n.Coll? && n.isMap && NodeOk(n)
    ensures forall i | 0 <= i < |n.kids| :: n.kids[i].mark.Key?
  {
    hide Placed, Leads, ReadScalar, Follows, FlowBlank, Comma;
    assert forall i | 0 <= i < |n.kids| ::
        if n.flow then FlowKidOk(n.kids[i], i == 0, true) else BlockKidOk(n.kids[i], n.col, i == 0, true);
  }

  lemma {:induction false} FindNameOnly(kids: seq<Kid>, part: string)
    requires FindName(kids, part).Ok?
    ensures var found := FindName(kids, part).value;
            forall j | 0 <= j < |kids| && kids[j].mark.Key? && kids[j].mark.name == part :: found == Some(j)
  {
    if kids == [] {
    } else {
      FindNameOnly(kids[..|kids| - 1], part);
    }
  }

  /** Where the keys allow an edit, the name is found exactly where the value has it. */
  lemma FindNameIsFind(n: Node, part: string)
    requires n.Coll? && n.isMap && FindName(n.kids, part).Ok?
    requires forall j | 0 <= j < |n.kids| :: n.kids[j].mark.Key?
    ensures Find(NodeValue(n).pairs, part) == FindName(n.kids, part).value
  {
    hide FindName;
    FindNameOnly(n.kids, part);
    var pairs := NodeValue(n).pairs;
    var found := FindName(n.kids, part).value;
    if found.Some? {
      assert pairs[found.value].key == part;
    }
    var at := Find(pairs, part);
    if at.Some? {
      assert n.kids[at.value].mark.name == part;
    }
  }

  /** A null value on the path becomes the container the next part asks for. */
  function Held(v: Value, part: Part): Value {
    if !v.Null? then v else if part.Index? then List([]) else Dict([])
  }

  lemma WithNew(data: Value, rest: seq<Part>, value: Value, inner: Value)
    requires rest != [] && Child(data, rest[0]) == None && Nested(rest[1..], value) == Ok(inner)
    ensures With(data, rest, value) == Put(data, rest[0], inner)
  {
    hide Child;
    if |rest| > 1 {
      NestedIsWith(rest[1..], value, Held(Null, rest[1]));
    }
  }

  lemma AppendValue(k: Kid, inFlow: bool, col: nat, v: Value, flow: bool, nl: string)
    requires k.node.Coll? && !k.node.isMap
    ensures var e := AppendKid(k, inFlow, col, v, flow, nl);
            NodeValue(e.node) == List(NodeValue(k.node).items + [v]) && (Spelled(k.node) ==> Spelled(e.node))
  {
    hide FlowNode, BlockNode, ItemKid, KeySpelled;
    var n := k.node;
    NoKeySpelled(Bare);
    FlowNodeValue(v);
    FlowNodeValue(List([v]));
    BlockNodeValue(List([v]), col + 2, nl, k.tail);
    ItemKidValue(v, n.col, nl, [Br(nl, n.col, "")], "");
    var items := NodeValue(n).items;
    if n.kids == [] { assert items + [v] == [v]; }
    var kid := if n.flow then FlowItem(false, v) else ItemKid(v, n.col, nl, [Br(nl, n.col, "")], "");
    assert NodeValue(n.(kids := n.kids + [kid])).items == items + [v];
  }

  lemma InsertValue(k: Kid, inFlow: bool, col: nat, key: string, v: Value, flow: bool, nl: string)
    requires k.node.Coll? && k.node.isMap
    ensures var e := InsertKid(k, inFlow, col, key, v, flow, nl);
            && NodeValue(e.node) == Dict(NodeValue(k.node).pairs + [Pair(key, v)])
            && (Spelled(k.node) ==> Spelled(e.node))
  {
    hide FlowNode, BlockNode, EntryKid, KeySpelled, Quote;
    QuotedKeySpelled(key);
    var n := k.node;
    FlowNodeValue(v);
    FlowNodeValue(Dict([Pair(key, v)]));
    EntryKidValue(key, v, col + 2, flow, nl, [], k.tail);
    var lead := (if k.mark.Bare? then [Br(nl, 0, "")] else []) + [Br(nl, n.col, "")];
    EntryKidValue(key, v, n.col, flow, nl, lead, "");
    var pairs := NodeValue(n).pairs;
    if n.kids == [] { assert pairs + [Pair(key, v)] == [Pair(key, v)]; }
    var kid := if n.flow then FlowEntry(false, key, v) else EntryKid(key, v, n.col, flow, nl, lead, "");
    assert NodeValue(n.(kids := n.kids + [kid])).pairs == pairs + [Pair(key, v)];
    var only := Coll(false, true, col + 2, [EntryKid(key, v, col + 2, flow, nl, [], k.tail)], "");
    assert NodeValue(only).pairs == [Pair(key, v)];
  }

  lemma FinishValue(k: Kid, inFlow: bool, col: nat, rest: seq<Part>, value: Value, flow: bool, nl: string)
    requires NodeOk(k.node) && rest != [] && StepKid(k.node, rest[0]) == Ok(None)
    requires FinishKid(k, inFlow, col, rest, value, flow, nl).Ok?
    ensures var e := FinishKid(k, inFlow, col, rest, value, flow, nl).value;
            && With(Held(NodeValue(k.node), rest[0]), rest, value) == Some(NodeValue(e.node))
            && (Spelled(k.node) ==> Spelled(e.node))
  {
    hide With, Nested, AppendKid, InsertKid, ReplaceKid, FindName, NodeOk, Spelled;
    var n := k.node;
    if n.Coll? {
      var inner := Nested(rest[1..], value).value;
      if n.isMap {
        MapKeys(n);
        FindNameIsFind(n, rest[0].name);
        InsertValue(k, inFlow, col, rest[0].name, inner, flow, nl);
      } else {
        AppendValue(k, inFlow, col, inner, flow, nl);
      }
      WithNew(NodeValue(n), rest, value, inner);
    } else {
      NestedIsWith(rest, value, Held(Null, rest[0]));
      ReplaceValue(k, inFlow, col, Nested(rest, value).value, flow, nl);
    }
  }

  predicate SameStart(a: Kid, b: Kid) {
    a.mark == b.mark && a.sep == b.sep && a.lead == b.lead
  }

  lemma ReplaceStart(k: Kid, inFlow: bool, col: nat, value: Value, flow: bool, nl: string)
    ensures SameStart(k, ReplaceKid(k, inFlow, col, value, flow, nl))
  {
    hide FlowNode, BlockNode, LiteralNode, BlockScalar, ItemMapping;
  }

  lemma GrownStart(k: Kid, inFlow: bool, col: nat, key: string, value: Value, flow: bool, nl: string)
    requires k.node.Coll?
    ensures SameStart(k, AppendKid(k, inFlow, col, value, flow, nl))
    ensures SameStart(k, InsertKid(k, inFlow, col, key, value, flow, nl))
  {
    hide FlowNode, BlockNode, EntryKid, ItemKid;
  }

  /** No edit moves a child's own start or renames it. */
  lemma MarkKept(k: Kid, inFlow: bool, col: nat, path: seq<Part>, value: Value, flow: bool, nl: string)
    requires EditKid(k, inFlow, col, path, value, flow, nl).Ok?
    ensures SameStart(k, EditKid(k, inFlow, col, path, value, flow, nl).value)
  {
    hide ReplaceKid, AppendKid, InsertKid, Nested, StepKid;
    if path == [] {
      ReplaceStart(k, inFlow, col, value, flow, nl);
    } else if StepKid(k.node, path[0]) == Ok(None) {
      if k.node.Coll? {
        var v := Nested(path[1..], value).value;
        GrownStart(k, inFlow, col, if path[0].Name? then path[0].name else "", v, flow, nl);
      } else {
        ReplaceStart(k, inFlow, col, Nested(path, value).value, flow, nl);
      }
    }
  }

  /** Every edit of the tree reads back as the plain edit of its value. */
  lemma {:induction false} EditValue(k: Kid, inFlow: bool, col: nat, path: seq<Part>, value: Value, flow: bool,
          nl: string)
    requires NodeOk(k.node) && EditKid(k, inFlow, col, path, value, flow, nl).Ok?
    ensures var v := NodeValue(EditKid(k, inFlow, col, path, value, flow, nl).value.node);
            if path == [] then v == value else With(Held(NodeValue(k.node), path[0]), path, value) == Some(v)
    ensures Spelled(k.node) ==> Spelled(EditKid(k, inFlow, col, path, value, flow, nl).value.node)
    decreases |path|
  {
    hide ReplaceKid, FinishKid, StepKid, NodeOk, NodeValue, Spelled;
    if path == [] {
      ReplaceValue(k, inFlow, col, value, flow, nl);
    } else {
      var step := StepKid(k.node, path[0]).value;
      if step.None? {
        FinishValue(k, inFlow, col, path, value, flow, nl);
      } else {
        var n, i := k.node, step.value;
        var child := EditKid(n.kids[i], n.flow, n.col, path[1..], value, flow, nl).value;
        ChildrenOk(n, i);
        EditValue(n.kids[i], n.flow, n.col, path[1..], value, flow, nl);
        MarkKept(n.kids[i], n.flow, n.col, path[1..], value, flow, nl);
        SetChildValue(n, i, child, path[0]);
        if Spelled(n) { SetChildSpelled(n, i, child); }
        CollValue(n);
        assert |path| > 1 ==> path[1..][0] == path[1];
      }
    }
  }

  lemma CollValue(n: Node)
    requires n.Coll?
    ensures NodeValue(n).Dict? || NodeValue(n).List?
  {
  }

  lemma ChildrenOk(n: Node, i: nat)
    requires n.Coll? && NodeOk(n) && i < |n.kids|
    ensures NodeOk(n.kids[i].node)
  {
  }

  /** The edited document's value is `_with` of the document's value. */
  lemma EditDocValue(d: Doc, path: seq<Part>, value: Value, flow: bool)
    requires DocOk(d) && EditDoc(d, path, value, flow).Ok?
    ensures With(DocValue(d), path, value) == Some(DocValue(EditDoc(d, path, value, flow).value))
  {
    hide EditKid, NodeValue, NodeOk, RootOk, PrintDoc, With, Spelled;
    EditValue(d.root, false, 0, path, value, flow, Newline(PrintDoc(d)));
    CollValue(d.root.node);
  }
}
