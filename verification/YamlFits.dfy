/**
 When the edited text is again a document of the same kind: a condition on the document, the
 path and the value alone. The splice can misplace a value, let a comment or a literal block
 take text in, or write a key too long to be read as one; outside these the edited tree is
 well formed, and in each of them it is not.
 */
module YamlFits {
  import opened Text
  import opened YamlValue
  import opened YamlEmit
  import opened YamlBlock
  import opened YamlTree
  import opened YamlBuild
  import opened YamlEdit
  import YamlMarks
  import opened YamlSplice
  import opened YamlSplicePrints
  import opened YamlSetPrints

  /** `v` written as a block at column `inner` belongs to a key at column `at`. */
  predicate UnderFits(v: Value, at: nat, inner: nat) {
    !NonemptyCollection(v) || inner > at || (inner == at && v.List?)
  }

  /** Lines that leave a literal block of `text` at `indent` alone, and one there for a final line break. */
  predicate Spared(after: seq<Br>, text: string, indent: nat) {
    (EndsWith(text, "\n") ==> after != []) && Spares(after, indent)
  }

  /** A text written over a key's literal block is a literal block again. */
  predicate AsLiteral(k: Kid, col: nat, value: Value) {
    k.mark.Key? && k.node.Literal? && value.Str? && BlockScalar(value.text, col + 2).Some?
  }

  /**
   A replaced value lands where its lines say it does:
   - no comment touches the new value, if that is a plain scalar in a flow collection;
   - an item that was empty has no blank after its dash, and the new value would touch the dash;
   - a mapping in a list item is written for an item two columns right of its dash;
   - a mapping over a list that was not indented would join the key's own mapping;
   - a new literal block would take in lines after it that are as deep;
   - a key longer than YAML reads.
   `touched` says that a comment starts right after the child, `after` is the lines that follow it.
   */
  predicate ReplaceFits(k: Kid, inFlow: bool, col: nat, value: Value, flow: bool, touched: bool, after: seq<Br>) {
    var block := AsBlock(k, inFlow, value, flow);
    if inFlow then FlowKeys(value) && (touched ==> !Unquoted(value))
    else if !k.mark.Key? then
      && PrintNode(k.node) != ""
      && (if block && value.Dict? then BlockKeys(value) else FlowKeys(value))
      && (block && value.Dict? ==>
            StartCol(k, col) == col + 2
                     || (|value.pairs| == 1 && UnderFits(value.pairs[0].val, StartCol(k, col), col + 4)))
    else if AsLiteral(k, col, value) then Spared(after, value.text, col + 2)
    else if !block then FlowKeys(value)
    else BlockKeys(value) && (IsBlockNode(k.node) && k.node.Coll? ==> UnderFits(value, col, k.node.col))
  }

  /** A new item or entry lands: its keys are short, and no comment touches it. */
  predicate GrowFits(k: Kid, inFlow: bool, part: Part, v: Value, flow: bool)
    requires k.node.Coll?
  {
    var n := k.node;
    if n.flow && n.kids != [] then
      && (n.isMap && part.Name? ==> QuotedKeyFits(part.name)) && FlowKeys(v)
      && (Hashed(n.close) ==> !Unquoted(v))
    else if n.isMap && part.Name? then
      if !n.flow || (k.mark.Key? && !inFlow) then EntryKeys(part.name, v, flow)
      else QuotedKeyFits(part.name) && FlowKeys(v)
    else if !n.flow || (k.mark.Key? && !flow && !inFlow) then ItemKeys(v)
    else FlowKeys(v)
  }

  /** The lines after child `i` of a collection that is followed by `after`. */
  function AfterKid(n: Node, i: nat, after: seq<Br>): seq<Br>
    requires n.Coll? && i < |n.kids|
  {
    if !n.flow && i + 1 < |n.kids| then n.kids[i + 1].lead else after
  }

  predicate TouchedKid(n: Node, i: nat)
    requires n.Coll? && i < |n.kids|
  {
    n.flow && Hashed(Beyond(n.kids, n.close, i))
  }

  /** The whole edit lands. */
  predicate EditFits(k: Kid, inFlow: bool, col: nat, path: seq<Part>, value: Value, flow: bool, touched: bool,
          after: seq<Br>)
    decreases |path|
  {
    if path == [] then ReplaceFits(k, inFlow, col, value, flow, touched, after)
    else
      match StepKid(k.node, path[0])
      case Err(_) => false
      case Ok(None) =>
        (match Nested(if k.node.Coll? then path[1..] else path, value)
         case Err(_) => false
         case Ok(v) =>
           if k.node.Coll? then GrowFits(k, inFlow, path[0], v, flow)
           else ReplaceFits(k, inFlow, col, v, flow, touched, after))
      case Ok(Some(i)) =>
        var n := k.node;
        EditFits(n.kids[i], n.flow, n.col, path[1..], value, flow, TouchedKid(n, i), AfterKid(n, i, after))
  }

  predicate DocFits(d: Doc, path: seq<Part>, value: Value, flow: bool) {
    EditFits(d.root, false, 0, path, value, flow, false, d.end)
  }

  /** A child well formed in its place, with what follows it. */
  predicate Sits(place: Place, k: Kid, touched: bool, after: seq<Br>) {
    KidIn(place, k) && NodeOk(k.node) && (touched ==> Touchable(k)) && Follows(k.node, after)
  }

  lemma NewlineOk(text: string)
    ensures LineBreak(Newline(text))
  {
  }

  // ------------------------------------------------------------ replacements

  /** The lines of a text a literal block can hold. */
  lemma LiteralRaw(text: string, indent: nat)
    requires BlockScalar(text, indent).Some?
    ensures var raw := SplitLines(Body(text));
            && FirstText(raw) != "" && FirstText(raw)[0] != ' ' && raw[|raw| - 1] != "" && HasInk(raw[|raw| - 1])
            && forall i | 0 <= i < |raw| :: OneLine(raw[i])
  {
    hide Indented, FirstText, SplitLines, Unsafe, PySpace, HasInk, Ink, NodeOk, PrintBrs;
    var raw := SplitLines(Body(text));
    BodyOf(text);
    JoinSplit(Body(text));
    assert forall i | 0 <= i < |raw| :: OneLine(raw[i]) by {
      assert Lacks(Body(text), '\r');
      SplitChars(Body(text), '\r');
    }
    var first := FirstText(raw);
    assert first[0] != ' ';
    assert raw[|raw| - 1] != "" && !Blank(raw[|raw| - 1]);
    NotBlankInk(raw[|raw| - 1]);
  }

  lemma NotBlankInk(line: string)
    requires !Blank(line)
    ensures HasInk(line)
  {
    var i :| 0 <= i < |line| && !PySpace(line[i]);
    assert Ink(line[i]);
  }

  lemma {:induction false} SplitChars(text: string, c: char)
    requires Lacks(text, c)
    ensures forall i | 0 <= i < |SplitLines(text)| :: Lacks(SplitLines(text)[i], c)
  {
    if text == "" {
    } else {
      assert Lacks(text[1..], c);
      SplitChars(text[1..], c);
      var rest := SplitLines(text[1..]);
      forall i | 0 <= i < |SplitLines(text)| ensures Lacks(SplitLines(text)[i], c) {
        var l := SplitLines(text)[i];
        if text[0] == '\n' {
          if i > 0 { assert l == rest[i - 1]; }
        } else if i == 0 {
          assert l == [text[0]] + rest[0];
        } else {
          assert l == rest[i];
        }
      }
    }
  }

  /** A literal block the emitter writes is well formed. */
  lemma LiteralNodeOk(note: string, text: string, indent: nat, nl: string)
    requires BlockScalar(text, indent).Some? && LineBreak(nl) && Trailing(note)
    ensures var n := LiteralNode(note, text, indent, nl); NodeOk(n) && n.indent == indent
  {
    hide ReadBlock, Trailing, SplitLines, BlockIndent, HasInk, BlockScalar, Lines, FirstText;
    var raw := SplitLines(Body(text));
    var body := LiteralBody(text, indent, nl);
    LiteralRaw(text, indent);
    assert |Broken(raw, indent, nl)| == |raw|;
    assert forall b | b in Broken(raw, indent, nl) :: LineBreak(b.nl) && OneLine(b.note);
    assert raw != [] ==> Broken(raw, indent, nl)[|raw| - 1].note == raw[|raw| - 1];
  }

  lemma ItemMappingOk(value: Value, start: nat, dash: nat, nl: string, tail: string)
    requires value.Dict? && value.pairs != [] && LineBreak(nl) && Trailing(tail)
    ensures var n := ItemMapping(value, start, dash, nl, tail);
            NodeOk(n) <==> BlockKeys(value) && (n.col == dash + 2 || UnderFits(value.pairs[0].val, start, dash + 4))
    ensures LastLiteral(ItemMapping(value, start, dash, nl, tail)) == None
  {
    hide NodeOk, EntryKids, EntryKid, BlockKidOk, KeyFits, ValueKeys;
    var n := ItemMapping(value, start, dash, nl, tail);
    BlockNodeOk(value, dash + 2, nl, tail);
    var b := BlockNode(value, dash + 2, nl, tail);
    assert b == n.(col := dash + 2);
    assert LastLiteral(n) == LastLiteral(b);
    if n.col == dash + 2 {
      assert n == b;
    } else {
      var p := value.pairs[0];
      assert n.kids == [EntryKid(p.key, p.val, dash + 2, false, nl, [], tail)];
      EntryKidOk(p.key, p.val, dash + 2, false, nl, [], tail, true);
      OneEntryOk(p.key, p.val, start, dash + 2, nl, tail);
      OneKidNode(n);
    }
  }

  lemma OneKidNode(n: Node)
    requires n.Coll? && !n.flow && |n.kids| == 1 && n.close == ""
    ensures NodeOk(n) <==> NodeOk(n.kids[0].node) && BlockKidOk(n.kids[0], n.col, true, n.isMap)
  {
    hide BlockKidOk;
  }

  lemma OneEntryOk(key: string, v: Value, at: nat, col: nat, nl: string, tail: string)
    requires LineBreak(nl) && Trailing(tail)
    ensures BlockKidOk(EntryKid(key, v, col, false, nl, [], tail), at, true, true)
            <==> KeyFits(key) && UnderFits(v, at, col + 2)
  {
    hide FlowNode, BlockNode, KeyOk, KeyText, NodeOk, KeyFits, BlockKeys, KeySound;
    KeyTextOk(key);
    if NonemptyCollection(v) {
      BlockNodeOk(v, col + 2, nl, tail);
    } else {
      FlowNodePlain(v);
    }
  }

  lemma SparedFollows(n: Node, after: seq<Br>, text: string, indent: nat)
    requires n.Literal? && n.clip == EndsWith(text, "\n") && n.indent == indent
    ensures Follows(n, after) <==> Spared(after, text, indent)
  {
  }

  lemma NoneFollows(n: Node, after: seq<Br>)
    requires LastLiteral(n) == None
    ensures Follows(n, after)
  {
  }

  /** A replaced block child sits well exactly when the replacement fits. */
  lemma BlockReplaced(k: Kid, col: nat, first: bool, isMap: bool, value: Value, flow: bool, nl: string, after: seq<Br>)
    requires BlockKidOk(k, col, first, isMap) && NodeOk(k.node) && LineBreak(nl)
    ensures var e := ReplaceKid(k, false, col, value, flow, nl);
            (BlockKidOk(e, col, first, isMap) && NodeOk(e.node) && Follows(e.node, after))
            <==> ReplaceFits(k, false, col, value, flow, false, after)
  {
    hide NodeOk, ReplaceKid, BlockKidOk, AsLiteral;
    if !k.mark.Key? {
      ItemReplaced(k, col, first, isMap, value, flow, nl, after);
    } else if AsLiteral(k, col, value) {
      LiteralReplaced(k, col, first, isMap, value, flow, nl, after);
    } else {
      EntryReplaced(k, col, first, isMap, value, flow, nl, after);
    }
  }

  lemma LiteralReplaced(k: Kid, col: nat, first: bool, isMap: bool, value: Value, flow: bool, nl: string,
          after: seq<Br>)
    requires BlockKidOk(k, col, first, isMap) && NodeOk(k.node) && LineBreak(nl) && AsLiteral(k, col, value)
    ensures var e := ReplaceKid(k, false, col, value, flow, nl);
            (BlockKidOk(e, col, first, isMap) && NodeOk(e.node) && Follows(e.node, after))
              <==> Spared(after, value.text, col + 2)
  {
    hide FlowNode, ReadScalar, NodeOk, BlockNode, LiteralBody, PrintNode, BlockScalar, EntryKids, Leads, Trailing,
         KeyOk, Follows, Spared;
    LiteralNote(k.node);
    LiteralNodeOk(k.node.note, value.text, col + 2, nl);
    SparedFollows(LiteralNode(k.node.note, value.text, col + 2, nl), after, value.text, col + 2);
  }

  lemma EntryReplaced(k: Kid, col: nat, first: bool, isMap: bool, value: Value, flow: bool, nl: string, after: seq<Br>)
    requires BlockKidOk(k, col, first, isMap) && NodeOk(k.node) && LineBreak(nl) && k.mark.Key?
             && !AsLiteral(k, col, value)
    ensures var e := ReplaceKid(k, false, col, value, flow, nl);
            (BlockKidOk(e, col, first, isMap) && NodeOk(e.node) && Follows(e.node, after))
            <==> ReplaceFits(k, false, col, value, flow, false, after)
  {
    hide FlowNode, ReadScalar, NodeOk, BlockNode, LiteralBody, PrintNode, BlockScalar, EntryKids, Leads, LastLiteral,
         Trailing, KeyOk, Follows, FlowKeys, BlockKeys, Spared;
    SpaceBlank();
    FlowNodePlain(value);
    FlowNodeOk(value);
    NoneFollows(ReplaceKid(k, false, col, value, flow, nl).node, after) by {
      if AsBlock(k, false, value, flow) {
        BlockNodeOk(value, if IsBlockNode(k.node) && k.node.Coll? then k.node.col else col + 2, nl, "");
      }
    }
    if AsBlock(k, false, value, flow) {
      var indent := if IsBlockNode(k.node) && k.node.Coll? then k.node.col else col + 2;
      BlockNodeOk(value, indent, nl, "");
      assert Leads([Br(nl, indent, "")], indent) by { OneBrLeads(nl, indent); }
    }
  }

  lemma ItemReplaced(k: Kid, col: nat, first: bool, isMap: bool, value: Value, flow: bool, nl: string, after: seq<Br>)
    requires BlockKidOk(k, col, first, isMap) && NodeOk(k.node) && LineBreak(nl) && !k.mark.Key?
    ensures var e := ReplaceKid(k, false, col, value, flow, nl);
            (BlockKidOk(e, col, first, isMap) && NodeOk(e.node) && Follows(e.node, after))
            <==> ReplaceFits(k, false, col, value, flow, false, after)
  {
    hide BlockKidOk, ReplaceKid, NodeOk, Follows, PrintNode, BlockKeys, FlowKeys, UnderFits, Spared;
    if AsBlock(k, false, value, flow) && value.Dict? {
      ItemAsMapping(k, col, first, isMap, value, flow, nl, after);
    } else {
      ItemInline(k, col, first, isMap, value, flow, nl, after);
    }
  }

  lemma ItemAsMapping(k: Kid, col: nat, first: bool, isMap: bool, value: Value, flow: bool, nl: string, after: seq<Br>)
    requires BlockKidOk(k, col, first, isMap) && NodeOk(k.node) && LineBreak(nl) && !k.mark.Key?
    requires AsBlock(k, false, value, flow) && value.Dict?
    ensures var e, start := ReplaceKid(k, false, col, value, flow, nl), StartCol(k, col);
            (BlockKidOk(e, col, first, isMap) && NodeOk(e.node) && Follows(e.node, after))
            <==> PrintNode(k.node) != "" && BlockKeys(value)
                 && (start == col + 2 || (|value.pairs| == 1 && UnderFits(value.pairs[0].val, start, col + 4)))
  {
    hide FlowNode, ReadScalar, NodeOk, BlockNode, PrintNode, EntryKids, Leads, LastLiteral, Trailing, Follows,
         BlockKeys, UnderFits;
    SpaceBlank();
    var tail := if IsBlockNode(k.node) then "" else k.tail;
    assert Trailing(tail);
    BlockShown(k.node);
    ItemMappingOk(value, StartCol(k, col), col, nl, tail);
    NoneFollows(ReplaceKid(k, false, col, value, flow, nl).node, after);
  }

  lemma ItemInline(k: Kid, col: nat, first: bool, isMap: bool, value: Value, flow: bool, nl: string, after: seq<Br>)
    requires BlockKidOk(k, col, first, isMap) && NodeOk(k.node) && LineBreak(nl) && !k.mark.Key?
    requires !(AsBlock(k, false, value, flow) && value.Dict?)
    ensures var e := ReplaceKid(k, false, col, value, flow, nl);
            (BlockKidOk(e, col, first, isMap) && NodeOk(e.node) && Follows(e.node, after))
            <==> PrintNode(k.node) != "" && FlowKeys(value)
  {
    hide FlowNode, ReadScalar, NodeOk, BlockNode, PrintNode, EntryKids, Leads, LastLiteral, Trailing, Follows, FlowKeys,
         AsBlock;
    FlowNodePlain(value);
    FlowNodeOk(value);
    SpaceBlank();
    var tail := if IsBlockNode(k.node) then "" else k.tail;
    assert Trailing(tail);
    BlockShown(k.node);
    NoneFollows(FlowNode(value), after);
  }

  lemma OneBrLeads(nl: string, col: nat)
    requires LineBreak(nl)
    ensures Leads([Br(nl, col, "")], col)
  {
  }

  lemma LiteralNote(n: Node)
    requires n.Literal? && NodeOk(n)
    ensures Trailing(n.note)
  {
    hide Lines, ReadBlock, BlockIndent;
  }

  /** Only an empty scalar has no text. */
  lemma BlockShown(n: Node)
    requires NodeOk(n)
    ensures PrintNode(n) == "" <==> n.Scalar? && n.src == ""
  {
    hide FlowKidOk, Follows, LiteralOk;
    if n.Coll? && !n.flow {
      BareBlock(n);
      assert BlockKidOk(n.kids[0], n.col, true, n.isMap);
      assert PrintKids(n.kids) != "" by {
        hide PrintNode, PrintBrs, Placed, ReadScalar;
        var k := n.kids[0];
        assert KidHead(k) == KidLead(k) + MarkText(k.mark) + k.gap + PrintBrs(k.drop);
        assert MarkText(k.mark) != "";
        assert |PrintKid(k)| >= |MarkText(k.mark)|;
      }
    }
  }

  // ----------------------------------------------------------------- growing

  /** A literal block at the end of a block child is indented past the child's column. */
  lemma {:induction false} LiteralDeeper(k: Kid, col: nat, first: bool, isMap: bool)
    requires BlockKidOk(k, col, first, isMap) && NodeOk(k.node) && LastLiteral(k.node).Some?
    ensures LastLiteral(k.node).value.indent > col
    decreases k
  {
    hide Leads, ReadScalar, Follows, LiteralOk, FlowKidOk;
    if k.node.Coll? {
      var n := k.node;
      var last := |n.kids| - 1;
      assert BlockKidOk(n.kids[last], n.col, last == 0, n.isMap);
      LiteralDeeper(n.kids[last], n.col, last == 0, n.isMap);
    }
  }

  lemma NewLeadFollows(k: Kid, col: nat, first: bool, isMap: bool, lead: seq<Br>)
    requires BlockKidOk(k, col, first, isMap) && NodeOk(k.node)
    requires lead != [] && forall b | b in lead :: b.note == "" && b.pad <= col
    ensures Follows(k.node, lead)
  {
    hide BlockKidOk, NodeOk, LastLiteral;
    if LastLiteral(k.node).Some? {
      LiteralDeeper(k, col, first, isMap);
      BlankSpares(lead, LastLiteral(k.node).value.indent);
    }
  }

  lemma {:induction false} BlankSpares(brs: seq<Br>, indent: nat)
    requires forall b | b in brs :: b.note == "" && b.pad <= indent
    ensures Spares(brs, indent)
  {
    if brs == [] {
    } else {
      assert brs[0] in brs;
      BlankSpares(brs[1..], indent);
    }
  }

  /** What makes a block collection of well-formed children well formed. */
  predicate BlockShape(kids: seq<Kid>, col: nat, isMap: bool) {
    && kids != []
    && (forall i | 0 <= i < |kids| :: BlockKidOk(kids[i], col, i == 0, isMap))
    && forall i | 0 <= i < |kids| - 1 :: Follows(kids[i].node, kids[i + 1].lead)
  }

  /** And a flow collection. */
  predicate FlowShape(kids: seq<Kid>, close: string, isMap: bool) {
    && (FlowBlank(close) || (kids != [] && Comma(close)))
    && (forall i | 0 <= i < |kids| :: FlowKidOk(kids[i], i == 0, isMap))
    && Clear(kids, close)
  }

  predicate KidNodesOk(kids: seq<Kid>) {
    forall i | 0 <= i < |kids| :: NodeOk(kids[i].node)
  }

  /** A collection is well formed when its children are and they stand together as its style asks. */
  lemma CollParts(n: Node)
    requires n.Coll?
    ensures NodeOk(n)
            <==> && KidNodesOk(n.kids)
                 && if n.flow then n.col == 0 && FlowShape(n.kids, n.close, n.isMap)
                    else n.close == "" && BlockShape(n.kids, n.col, n.isMap)
  {
    hide BlockKidOk, FlowKidOk, Follows, FlowBlank, Comma, Clear;
  }

  /** A block collection with a child more. */
  lemma GrownOk(n: Node, kid: Kid)
    requires n.Coll? && !n.flow && NodeOk(n)
    requires kid.lead != [] && forall b | b in kid.lead :: b.note == "" && b.pad <= n.col
    ensures NodeOk(n.(kids := n.kids + [kid])) <==> NodeOk(kid.node) && BlockKidOk(kid, n.col, false, n.isMap)
  {
    hide BlockKidOk, Follows, NodeOk, FlowShape;
    CollParts(n);
    CollParts(n.(kids := n.kids + [kid]));
    assert KidNodesOk(n.kids + [kid]) <==> NodeOk(kid.node) by {
      hide NodeOk;
      assert (n.kids + [kid])[|n.kids|] == kid;
    }
    var last := |n.kids| - 1;
    NewLeadFollows(n.kids[last], n.col, last == 0, n.isMap, kid.lead);
    assert BlockShape(n.kids + [kid], n.col, n.isMap) <==> BlockKidOk(kid, n.col, false, n.isMap) by {
      hide BlockKidOk, Follows;
      var all, last := n.kids + [kid], |n.kids| - 1;
      assert all[last + 1] == kid && all[last] == n.kids[last];
      assert forall j | 0 <= j <= last :: all[j] == n.kids[j];
    }
  }

  lemma GrownFlowOk(n: Node, kid: Kid)
    requires n.Coll? && n.flow && NodeOk(n) && n.kids != [] && kid.sep == ", "
    ensures NodeOk(n.(kids := n.kids + [kid]))
            <==> NodeOk(kid.node) && FlowKidOk(kid, false, n.isMap) && (Hashed(n.close) ==> Touchable(kid))
  {
    hide FlowKidOk, Follows, BlockKidOk, FlowBlank, Comma, Clear, Touchable;
    var g := n.(kids := n.kids + [kid]);
    GrownClear(n.kids, n.close, kid);
    assert g.kids[|n.kids|] == kid;
    assert forall j | 0 <= j < |n.kids| :: g.kids[j] == n.kids[j];
  }

  lemma GrownClear(kids: seq<Kid>, close: string, kid: Kid)
    requires Clear(kids, close) && kid.sep == ", "
    ensures Clear(kids + [kid], close) <==> (Hashed(close) ==> Touchable(kid))
  {
    hide Touchable;
    var all := kids + [kid];
    assert all[|kids|] == kid && Beyond(all, close, |kids|) == close;
    forall i | 0 <= i < |kids| ensures Hashed(Beyond(all, close, i)) ==> Touchable(all[i]) {
      if i + 1 < |kids| {
        assert Beyond(all, close, i) == Beyond(kids, close, i);
      }
    }
  }

  lemma LeadOfTwo(nl: string, col: nat, root: bool)
    requires LineBreak(nl)
    ensures var lead := (if root then [Br(nl, 0, "")] else []) + [Br(nl, col, "")];
            Leads(lead, col) && forall b | b in lead :: b.note == "" && b.pad <= col
  {
  }

  lemma SingleEntryOk(key: string, v: Value, col: nat, flow: bool, nl: string, tail: string)
    requires LineBreak(nl) && Trailing(tail)
    ensures var n := Coll(false, true, col, [EntryKid(key, v, col, flow, nl, [], tail)], "");
            (NodeOk(n) <==> EntryKeys(key, v, flow)) && LastLiteral(n) == None
  {
    hide EntryKid, BlockKidOk, KeyFits, ValueKeys, NodeOk, Leads, Trailing;
    var n := Coll(false, true, col, [EntryKid(key, v, col, flow, nl, [], tail)], "");
    EntryKidOk(key, v, col, flow, nl, [], tail, true);
    OneKidNode(n);
  }

  /** The child around a collection keeps its place when only the collection's children change. */
  lemma SameBracketsOk(place: Place, k: Kid, kids: seq<Kid>)
    requires KidIn(place, k) && NodeOk(k.node) && k.node.Coll?
    requires kids != [] && (!k.node.flow ==> MarkText(kids[0].mark) != "")
    ensures KidIn(place, k.(node := k.node.(kids := kids)))
  {
    hide *;
    var n := k.node.(kids := kids);
    BlockShown(k.node);
    if n.flow {
      BracketsShown(n);
    } else {
      NodeClose(k.node);
      BareBlock(n);
      MarkShown(kids);
    }
    KidInSame(place, k, kids);
  }

  lemma MarkShown(kids: seq<Kid>)
    requires kids != [] && MarkText(kids[0].mark) != ""
    ensures PrintKids(kids) != ""
  {
    hide PrintNode, PrintBrs, MarkText;
    var k := kids[0];
    assert KidHead(k) == KidLead(k) + MarkText(k.mark) + k.gap + PrintBrs(k.drop);
    assert |PrintKid(k)| >= |MarkText(k.mark)|;
  }

  lemma BracketsShown(n: Node)
    requires n.Coll? && n.flow
    ensures PrintNode(n) != ""
  {
    hide PrintKids;
  }

  lemma KidInSame(place: Place, k: Kid, kids: seq<Kid>)
    requires KidIn(place, k) && k.node.Coll? && PrintNode(k.node) != "" && PrintNode(k.node.(kids := kids)) != ""
    ensures KidIn(place, k.(node := k.node.(kids := kids)))
  {
    hide PrintNode, Leads, FlowBlank, Comma, ReadScalar;
  }

  lemma NodeClose(n: Node)
    requires n.Coll? && !n.flow && NodeOk(n)
    ensures n.close == "" && n.kids != [] && BlockKidOk(n.kids[0], n.col, true, n.isMap)
            && MarkText(n.kids[0].mark) != ""
  {
    hide Follows, Placed, Leads;
  }

  /** `_append` lands exactly when the new item fits. */
  lemma AppendOk(place: Place, k: Kid, v: Value, flow: bool, nl: string, part: Part)
    requires KidIn(place, k) && NodeOk(k.node) && k.node.Coll? && !k.node.isMap && LineBreak(nl)
    ensures var e := AppendKid(k, InFlowPlace(place), Col(place), v, flow, nl);
            && KidIn(place, e) && e.node.Coll? && LastLiteral(e.node) == None
            && (NodeOk(e.node) <==> GrowFits(k, InFlowPlace(place), part, v, flow))
  {
    hide NodeOk, BlockKidOk, FlowKidOk, PrintKids, KidIn, PrintNode, ItemKid, FlowNode, BlockNode, Leads, FlowKeys,
         BlockKeys, LastLiteral, Touchable, ItemKeys;
    var n := k.node;
    if !n.flow {
      AppendBlockOk(place, k, v, nl);
    } else if n.kids != [] {
      AppendFlowOk(place, k, v);
    } else if k.mark.Key? && !flow && !InFlowPlace(place) {
      RootUnkeyed(k, place);
      TailOk(place, k);
      BlockNodeOk(List([v]), Col(place) + 2, nl, k.tail);
      OneItemKeys(v);
      OpenedIn(place, k, BlockNode(List([v]), Col(place) + 2, nl, k.tail), nl);
    } else {
      FlowNodeOk(List([v]));
      OneItemKeys(v);
      FlowNodePlain(List([v]));
      FilledIn(place, k, List([v]));
    }
  }

  lemma OneItemKeys(v: Value)
    ensures BlockKeys(List([v])) <==> ItemKeys(v)
    ensures FlowKeys(List([v])) <==> FlowKeys(v)
  {
    hide ItemKeys;
    assert List([v]).items[0] == v;
  }

  lemma AppendBlockOk(place: Place, k: Kid, v: Value, nl: string)
    requires KidIn(place, k) && NodeOk(k.node) && k.node.Coll? && !k.node.isMap && !k.node.flow && LineBreak(nl)
    ensures var kid := ItemKid(v, k.node.col, nl, [Br(nl, k.node.col, "")], "");
            var e := k.(node := k.node.(kids := k.node.kids + [kid]));
            KidIn(place, e) && LastLiteral(e.node) == None && (NodeOk(e.node) <==> ItemKeys(v))
  {
    hide *;
    var n := k.node;
    NodeClose(n);
    LeadOfTwo(nl, n.col, false);
    assert [] + [Br(nl, n.col, "")] == [Br(nl, n.col, "")];
    SpaceBlank();
    var kid := ItemKid(v, n.col, nl, [Br(nl, n.col, "")], "");
    ItemKidOk(v, n.col, nl, [Br(nl, n.col, "")], "", false);
    ItemKidLead(v, n.col, nl, [Br(nl, n.col, "")], "");
    GrownOk(n, kid);
    SameBracketsOk(place, k, n.kids + [kid]);
    LastGrown(n, kid);
  }

  lemma LastGrown(n: Node, kid: Kid)
    requires n.Coll?
    ensures LastLiteral(n.(kids := n.kids + [kid])) == if n.flow then None else LastLiteral(kid.node)
  {
  }

  lemma AppendFlowOk(place: Place, k: Kid, v: Value)
    requires KidIn(place, k) && NodeOk(k.node) && k.node.Coll? && !k.node.isMap && k.node.flow && k.node.kids != []
    ensures var e := k.(node := k.node.(kids := k.node.kids + [FlowItem(false, v)]));
            && KidIn(place, e) && LastLiteral(e.node) == None
            && (NodeOk(e.node) <==> FlowKeys(v) && (Hashed(k.node.close) ==> !Unquoted(v)))
  {
    hide NodeOk, BlockKidOk, FlowKidOk, PrintKids, KidIn, PrintNode, FlowNode, FlowKeys, LastLiteral, Touchable,
         Unquoted;
    var n := k.node;
    FlowKidsOk(false, "", v);
    FlowNodeOk(v);
    FlowTouchable(FlowItem(false, v), v);
    GrownFlowOk(n, FlowItem(false, v));
    SameBracketsOk(place, k, n.kids + [FlowItem(false, v)]);
    LastGrown(n, FlowItem(false, v));
  }

  /** `_insert` lands exactly when the new entry fits. */
  lemma InsertOk(place: Place, k: Kid, key: string, v: Value, flow: bool, nl: string)
    requires KidIn(place, k) && NodeOk(k.node) && k.node.Coll? && k.node.isMap && LineBreak(nl)
    ensures var e := InsertKid(k, InFlowPlace(place), Col(place), key, v, flow, nl);
            && KidIn(place, e) && e.node.Coll? && LastLiteral(e.node) == None
            && (NodeOk(e.node) <==> GrowFits(k, InFlowPlace(place), Name(key), v, flow))
  {
    hide NodeOk, BlockKidOk, FlowKidOk, PrintKids, KidIn, PrintNode, EntryKid, FlowNode, BlockNode, Leads, EntryKeys,
         LastLiteral, Touchable;
    var n := k.node;
    if !n.flow {
      InsertBlockOk(place, k, key, v, flow, nl);
    } else if n.kids != [] {
      InsertFlowOk(place, k, key, v);
    } else if k.mark.Key? && !InFlowPlace(place) {
      RootUnkeyed(k, place);
      TailOk(place, k);
      SingleEntryOk(key, v, Col(place) + 2, flow, nl, k.tail);
      OpenedIn(place, k,
               Coll(false, true, Col(place) + 2, [EntryKid(key, v, Col(place) + 2, flow, nl, [], k.tail)], ""), nl);
    } else {
      FlowNodeOk(Dict([Pair(key, v)]));
      assert FlowKeys(Dict([Pair(key, v)])) <==> QuotedKeyFits(key) && FlowKeys(v) by {
        hide QuotedKeyFits;
        assert Dict([Pair(key, v)]).pairs[0] == Pair(key, v);
      }
      FlowNodePlain(Dict([Pair(key, v)]));
      FilledIn(place, k, Dict([Pair(key, v)]));
    }
  }

  lemma InsertBlockOk(place: Place, k: Kid, key: string, v: Value, flow: bool, nl: string)
    requires KidIn(place, k) && NodeOk(k.node) && k.node.Coll? && k.node.isMap && !k.node.flow && LineBreak(nl)
    ensures var lead := (if k.mark.Bare? then [Br(nl, 0, "")] else []) + [Br(nl, k.node.col, "")];
            var e := k.(node := k.node.(kids := k.node.kids + [EntryKid(key, v, k.node.col, flow, nl, lead, "")]));
            KidIn(place, e) && LastLiteral(e.node) == None && (NodeOk(e.node) <==> EntryKeys(key, v, flow))
  {
    hide NodeOk, BlockKidOk, FlowKidOk, PrintKids, KidIn, PrintNode, Leads, KeyFits, ValueKeys, LastLiteral;
    var n := k.node;
    NodeClose(n);
    LeadOfTwo(nl, n.col, k.mark.Bare?);
    SpaceBlank();
    var lead := (if k.mark.Bare? then [Br(nl, 0, "")] else []) + [Br(nl, n.col, "")];
    var kid := EntryKid(key, v, n.col, flow, nl, lead, "");
    EntryKidOk(key, v, n.col, flow, nl, lead, "", false);
    assert EntryKid(key, v, n.col, flow, nl, lead, "").lead == lead by { hide FlowNode, BlockNode; }
    GrownOk(n, kid);
    SameBracketsOk(place, k, n.kids + [kid]);
    LastGrown(n, kid);
  }

  lemma InsertFlowOk(place: Place, k: Kid, key: string, v: Value)
    requires KidIn(place, k) && NodeOk(k.node) && k.node.Coll? && k.node.isMap && k.node.flow && k.node.kids != []
    ensures var e := k.(node := k.node.(kids := k.node.kids + [FlowEntry(false, key, v)]));
            && KidIn(place, e) && LastLiteral(e.node) == None
            && (NodeOk(e.node) <==> QuotedKeyFits(key) && FlowKeys(v) && (Hashed(k.node.close) ==> !Unquoted(v)))
  {
    hide NodeOk, BlockKidOk, FlowKidOk, PrintKids, KidIn, PrintNode, FlowNode, FlowKeys, LastLiteral, Touchable,
         Unquoted, QuotedKeyFits, Quote, FlowItem;
    var n := k.node;
    FlowKidsOk(false, key, v);
    FlowNodeOk(v);
    FlowTouchable(FlowEntry(false, key, v), v);
    GrownFlowOk(n, FlowEntry(false, key, v));
    SameBracketsOk(place, k, n.kids + [FlowEntry(false, key, v)]);
    LastGrown(n, FlowEntry(false, key, v));
  }

  lemma TailOk(place: Place, k: Kid)
    requires KidIn(place, k) && k.node.Coll? && k.node.flow && place.Child? && !place.flow
    ensures Trailing(k.tail)
  {
    hide Leads, ReadScalar, PrintNode;
  }

  lemma OpenedIn(place: Place, k: Kid, node: Node, nl: string)
    requires KidIn(place, k) && k.mark.Key? && !InFlowPlace(place) && LineBreak(nl)
    requires node.Coll? && !node.flow && node.col == Col(place) + 2
    ensures KidIn(place, Opened(k, Col(place), node, nl))
  {
    hide PrintNode;
    // A key's empty flow collection opened as a block.
    var col := Col(place);
    assert BlockKidOk(Opened(k, col, node, nl), col, place.first, place.isMap) by {
      hide NodeOk, Leads, ReadScalar;
      OneBrLeads(nl, col + 2);
      SpaceBlank();
    }
  }

  lemma FilledIn(place: Place, k: Kid, v: Value)
    requires KidIn(place, k) && k.node.Coll? && k.node.flow && (v.List? || v.Dict?)
    ensures KidIn(place, k.(node := FlowNode(v))) && FlowNode(v).Coll?
  {
    hide PrintNode, Leads, FlowBlank, Comma, ReadScalar, FlowEntries, FlowList;
    BracketsShown(k.node);
    BracketsShown(FlowNode(v));
  }

  // -------------------------------------------------------------- whole edits

  lemma ReplaceOk(place: Place, k: Kid, value: Value, flow: bool, nl: string, touched: bool, after: seq<Br>)
    requires KidIn(place, k) && NodeOk(k.node) && place.Child? && LineBreak(nl) && (touched ==> place.flow)
    ensures Sits(place, ReplaceKid(k, InFlowPlace(place), Col(place), value, flow, nl), touched, after)
            <==> ReplaceFits(k, InFlowPlace(place), Col(place), value, flow, touched, after)
  {
    hide NodeOk, BlockKidOk, Touchable, Follows, FlowKeys, BlockKeys, Unquoted, LastLiteral;
    if place.flow {
      var e := ReplaceKid(k, true, 0, value, flow, nl);
      assert FlowKidOk(e, place.first, place.isMap) && (NodeOk(e.node) <==> FlowKeys(value))
             && LastLiteral(e.node) == None && (Touchable(e) <==> !Unquoted(value)) by {
        hide Comma, FlowNode, ReadScalar, NodeOk, BlockNode, LiteralNode, PrintNode, LastLiteral, BlockScalar,
             ItemMapping,
             Touchable, FlowKeys;
        SpaceBlank();
        FlowNodePlain(value);
        FlowNodeOk(value);
        FlowTouchable(ReplaceKid(k, true, 0, value, flow, nl), value);
      }
      // In a flow collection the column plays no part.
      assert ReplaceKid(k, true, place.at, value, flow, nl) == ReplaceKid(k, true, 0, value, flow, nl) by {
        hide FlowNode, BlockNode, LiteralNode, BlockScalar, ItemMapping, FlowBlank, Comma, ReadScalar, PrintNode;
      }
      NoneFollows(ReplaceKid(k, true, 0, value, flow, nl).node, after);
    } else {
      BlockReplaced(k, place.at, place.first, place.isMap, value, flow, nl, after);
    }
  }

  /** A collection with one child replaced is well formed exactly when that child sits well in its place. */
  lemma ChildReplaced(n: Node, i: nat, e: Kid)
    requires n.Coll? && NodeOk(n) && i < |n.kids| && SameStart(n.kids[i], e)
    ensures NodeOk(n.(kids := n.kids[i := e])) <==>
            && KidIn(Child(n.flow, n.isMap, i == 0, n.col), e) && NodeOk(e.node) && (TouchedKid(n, i) ==> Touchable(e))
            && (i + 1 < |n.kids| && !n.flow ==> Follows(e.node, n.kids[i + 1].lead))
  {
    hide NodeOk, KidIn, Follows, Touchable, Clear;
    var g := n.(kids := n.kids[i := e]);
    if NodeOk(g) {
      KidsIn(g, i);
      if i + 1 < |n.kids| && !n.flow {
        NextFollows(g, i);
      }
      if n.flow {
        NodeClear(g);
        assert Beyond(g.kids, g.close, i) == Beyond(n.kids, n.close, i) by { SameSeps(n, i, e); }
        ClearAt(g.kids, g.close, i);
      }
    } else if KidIn(Child(n.flow, n.isMap, i == 0, n.col), e) && NodeOk(e.node) && (TouchedKid(n, i) ==> Touchable(e))
              && (i + 1 < |n.kids| && !n.flow ==> Follows(e.node, n.kids[i + 1].lead)) {
      ChildKept(n, i, e);
    }
  }

  lemma NodeClear(n: Node)
    requires n.Coll? && n.flow && NodeOk(n)
    ensures Clear(n.kids, n.close)
  {
    hide Clear, FlowKidOk;
  }

  lemma ClearAt(kids: seq<Kid>, close: string, i: nat)
    requires i < |kids| && Clear(kids, close)
    ensures Hashed(Beyond(kids, close, i)) ==> Touchable(kids[i])
  {
    hide Touchable, Beyond;
  }

  /** A child that starts as the old one did leaves every separator as it was. */
  lemma SameSeps(n: Node, i: nat, e: Kid)
    requires n.Coll? && i < |n.kids| && SameStart(n.kids[i], e)
    ensures forall j | 0 <= j < |n.kids| :: Beyond(n.kids[i := e], n.close, j) == Beyond(n.kids, n.close, j)
  {
  }

  lemma NextFollows(n: Node, i: nat)
    requires n.Coll? && !n.flow && NodeOk(n) && i + 1 < |n.kids|
    ensures Follows(n.kids[i].node, n.kids[i + 1].lead)
  {
    hide BlockKidOk, Follows;
  }

  lemma BlockShapeKept(kids: seq<Kid>, col: nat, isMap: bool, i: nat, e: Kid)
    requires BlockShape(kids, col, isMap) && i < |kids| && e.lead == kids[i].lead
    requires BlockKidOk(e, col, i == 0, isMap) && (i + 1 < |kids| ==> Follows(e.node, kids[i + 1].lead))
    ensures BlockShape(kids[i := e], col, isMap)
  {
    hide BlockKidOk, Follows;
    var all := kids[i := e];
    forall j | 0 <= j < |all| - 1 ensures Follows(all[j].node, all[j + 1].lead) {
      assert all[j + 1].lead == kids[j + 1].lead;
      if j != i { assert all[j] == kids[j]; }
    }
  }

  lemma ChildKept(n: Node, i: nat, e: Kid)
    requires n.Coll? && NodeOk(n) && i < |n.kids| && SameStart(n.kids[i], e)
    requires KidIn(Child(n.flow, n.isMap, i == 0, n.col), e) && NodeOk(e.node) && (TouchedKid(n, i) ==> Touchable(e))
    requires i + 1 < |n.kids| && !n.flow ==> Follows(e.node, n.kids[i + 1].lead)
    ensures NodeOk(n.(kids := n.kids[i := e]))
  {
    hide BlockKidOk, FlowKidOk, Follows, FlowBlank, Comma, NodeOk, BlockShape;
    CollParts(n);
    CollParts(n.(kids := n.kids[i := e]));
    if n.flow {
      assert Clear(n.kids[i := e], n.close) by {
        hide Touchable, SameStart;
        SameSeps(n, i, e);
      }
    } else {
      BlockShapeKept(n.kids, n.col, n.isMap, i, e);
    }
  }

  lemma FinishOk(place: Place, k: Kid, rest: seq<Part>, value: Value, flow: bool, nl: string, touched: bool,
          after: seq<Br>)
    requires KidIn(place, k) && NodeOk(k.node) && rest != [] && LineBreak(nl) && (place.Root? ==> k.node.Coll?)
    requires StepKid(k.node, rest[0]) == Ok(None) && (touched ==> place.Child? && place.flow)
    requires FinishKid(k, InFlowPlace(place), Col(place), rest, value, flow, nl).Ok?
    ensures Sits(place, FinishKid(k, InFlowPlace(place), Col(place), rest, value, flow, nl).value, touched, after)
            <==> EditFits(k, InFlowPlace(place), Col(place), rest, value, flow, touched, after)
  {
    hide NodeOk, KidIn, AppendKid, InsertKid, ReplaceKid, ReplaceFits, GrowFits, Nested, StepKid, Follows, LastLiteral;
    if k.node.Coll? {
      var v := Nested(rest[1..], value).value;
      if k.node.isMap {
        InsertOk(place, k, rest[0].name, v, flow, nl);
        NoneFollows(InsertKid(k, InFlowPlace(place), Col(place), rest[0].name, v, flow, nl).node, after);
      } else {
        AppendOk(place, k, v, flow, nl, rest[0]);
        NoneFollows(AppendKid(k, InFlowPlace(place), Col(place), v, flow, nl).node, after);
      }
    } else {
      ReplaceOk(place, k, Nested(rest, value).value, flow, nl, touched, after);
    }
  }

  /** An edit below a child leaves it well formed, in its place and clear of what follows exactly when the edit fits. */
  lemma {:induction false} EditOk(place: Place, k: Kid, path: seq<Part>, value: Value, flow: bool, nl: string,
          touched: bool, after: seq<Br>)
    requires Sits(place, k, touched, after) && LineBreak(nl) && (touched ==> place.Child? && place.flow)
    requires place.Root? ==> path != [] && k.node.Coll?
    requires EditKid(k, InFlowPlace(place), Col(place), path, value, flow, nl).Ok?
    ensures Sits(place, EditKid(k, InFlowPlace(place), Col(place), path, value, flow, nl).value, touched, after)
            <==> EditFits(k, InFlowPlace(place), Col(place), path, value, flow, touched, after)
    decreases |path|
  {
    hide NodeOk, KidIn, ReplaceKid, FinishKid, ReplaceFits, GrowFits, Nested, Follows, StepKid, LineBreak, Touchable,
         TouchedKid, AfterKid;
    if path == [] {
      ReplaceOk(place, k, value, flow, nl, touched, after);
    } else {
      var step := StepKid(k.node, path[0]).value;
      if step.None? {
        FinishOk(place, k, path, value, flow, nl, touched, after);
      } else {
        var n, i := k.node, step.value;
        var place' := Child(n.flow, n.isMap, i == 0, n.col);
        KidSits(n, i, after);
        EditOk(place', n.kids[i], path[1..], value, flow, nl, TouchedKid(n, i), AfterKid(n, i, after));
        MarkKept(n.kids[i], n.flow, n.col, path[1..], value, flow, nl);
        EditedSits(place, k, i, EditKid(n.kids[i], n.flow, n.col, path[1..], value, flow, nl).value, touched, after);
      }
    }
  }

  /** Every child of a collection that sits well sits well. */
  lemma KidSits(n: Node, i: nat, after: seq<Br>)
    requires n.Coll? && NodeOk(n) && i < |n.kids| && Follows(n, after)
    ensures Sits(Child(n.flow, n.isMap, i == 0, n.col), n.kids[i], TouchedKid(n, i), AfterKid(n, i, after))
    ensures TouchedKid(n, i) ==> n.flow
  {
    hide KidIn, Touchable, Clear;
    KidsIn(n, i);
    if n.flow {
      NodeClear(n);
      ClearAt(n.kids, n.close, i);
      assert Follows(n.kids[i].node, after) && Follows(n, after) by {
        hide NodeOk;
        KidsIn(n, i);
        assert LastLiteral(n.kids[i].node) == None by { hide FlowBlank, Comma, KeyOk; }
      }
    } else if i + 1 < |n.kids| {
      NextFollows(n, i);
    } else {
      LastFollowsToo(n, after);
    }
  }

  lemma LastFollowsToo(n: Node, after: seq<Br>)
    requires n.Coll? && !n.flow && n.kids != []
    ensures Follows(n, after) <==> Follows(n.kids[|n.kids| - 1].node, after)
  {
  }

  /** A child's collection with one child replaced sits well exactly when that child does. */
  lemma EditedSits(place: Place, k: Kid, i: nat, e: Kid, touched: bool, after: seq<Br>)
    requires Sits(place, k, touched, after) && k.node.Coll? && i < |k.node.kids| && SameStart(k.node.kids[i], e)
    ensures var n := k.node;
            Sits(place, k.(node := n.(kids := n.kids[i := e])), touched, after)
            <==> Sits(Child(n.flow, n.isMap, i == 0, n.col), e, TouchedKid(n, i), AfterKid(n, i, after))
  {
    hide NodeOk, KidIn, Follows, Clear, TouchedKid, BlockKidOk;
    var n := k.node;
    var g := n.(kids := n.kids[i := e]);
    ChildReplaced(n, i, e);
    if NodeOk(g) {
      assert !n.flow ==> MarkText(n.kids[i := e][0].mark) != "" by {
        hide NodeOk;
        if !n.flow {
          NodeClose(n.(kids := n.kids[i := e]));
        }
      }
      SameBracketsOk(place, k, g.kids);
    }
    AfterEdited(n, i, e, after);
  }

  lemma AfterEdited(n: Node, i: nat, e: Kid, after: seq<Br>)
    requires n.Coll? && i < |n.kids| && Follows(n, after)
    ensures var g := n.(kids := n.kids[i := e]);
            && (n.flow ==>
                  Follows(g, after)
                  && (KidIn(Child(true, n.isMap, i == 0, n.col), e) ==> Follows(e.node, after)))
            && (!n.flow ==> (Follows(g, after) <==> i + 1 < |n.kids| || Follows(e.node, after)))
  {
    hide Follows, KidIn;
    var g := n.(kids := n.kids[i := e]);
    if n.flow {
      NoneFollows(g, after);
      if KidIn(Child(true, n.isMap, i == 0, n.col), e) {
        FlowKidNone(e, i == 0, n.isMap, n.col);
        NoneFollows(e.node, after);
      }
    } else {
      LastFollowsToo(n, after);
      LastFollowsToo(g, after);
    }
  }

  lemma FlowKidNone(k: Kid, first: bool, isMap: bool, col: nat)
    requires KidIn(Child(true, isMap, first, col), k)
    ensures LastLiteral(k.node) == None
  {
    hide FlowBlank, Comma, KeyOk;
  }

  lemma KidsIn(n: Node, i: nat)
    requires n.Coll? && NodeOk(n) && i < |n.kids|
    ensures NodeOk(n.kids[i].node) && KidIn(Child(n.flow, n.isMap, i == 0, n.col), n.kids[i])
  {
    hide BlockKidOk, FlowKidOk, Follows, FlowBlank, Comma;
  }

  /** The edited document is well formed exactly when the edit fits. */
  lemma EditDocOk(d: Doc, path: seq<Part>, value: Value, flow: bool)
    requires DocOk(d) && EditDoc(d, path, value, flow).Ok?
    ensures DocOk(EditDoc(d, path, value, flow).value) <==> DocFits(d, path, value, flow)
  {
    hide NodeOk, Spelled, RootOk, EditKid, EditFits, Follows, Newline, PrintDoc, HasUnicodeBreak, LineBreak, With,
         NodeValue, Held;
    NewlineOk(PrintDoc(d));
    EditValue(d.root, false, 0, path, value, flow, Newline(PrintDoc(d)));
    EditOk(Root, d.root, path, value, flow, Newline(PrintDoc(d)), false, d.end);
  }

  /**
   What `set_value` promises. For every document, path and value where it does not refuse,
   the text it returns is the printing of a document whose value is `_with` of the old one;
   and that document is well formed exactly when the edit fits.
   */
  lemma SetValueReadsBack(d: Doc, m: CNode, path: seq<Part>, value: Value, flow: bool)
    requires DocOk(d) && YamlMarks.Composed(PrintDoc(d), d.root.node, |KidHead(d.root)|, m)
    requires SetValue(PrintDoc(d), Some(m), path, value, flow).Ok?
    ensures EditDoc(d, path, value, flow).Ok?
    ensures var e := EditDoc(d, path, value, flow).value;
            && SetValue(PrintDoc(d), Some(m), path, value, flow) == Ok(PrintDoc(e))
            && With(DocValue(d), path, value) == Some(DocValue(e))
            && (DocOk(e) <==> DocFits(d, path, value, flow))
  {
    hide *;
    SetValueSplices(d, m, path, value, flow);
    NeedsPath(d, path, value, flow);
    EditDocValue(d, path, value, flow);
    EditDocOk(d, path, value, flow);
  }

  lemma NeedsPath(d: Doc, path: seq<Part>, value: Value, flow: bool)
    ensures EditDoc(d, path, value, flow).Ok? ==> path != []
  {
    hide EditKid;
  }
}
