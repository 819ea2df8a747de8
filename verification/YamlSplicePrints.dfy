/**
 The splice is the printing of the edited tree: slicing characters at composed marks
 changes exactly the child the edit names.
 */
module YamlSplicePrints {
  import opened Text
  import opened YamlValue
  import opened YamlEmit
  import opened YamlBlock
  import opened YamlTree
  import opened YamlBuild
  import opened YamlEdit
  import opened YamlMarks
  import opened YamlSplice

  /** The collection a child stands in, or the document. */
  datatype Place = Root | Child(flow: bool, isMap: bool, first: bool, at: nat)

  predicate InFlowPlace(place: Place) {
    place.Child? && place.flow
  }

  function Col(place: Place): nat {
    if place.Child? then place.at else 0
  }

  predicate KidIn(place: Place, k: Kid) {
    match place
    case Root => RootOk(k)
    case Child(flow, isMap, first, at) =>
      if flow then FlowKidOk(k, first, isMap) else BlockKidOk(k, at, first, isMap)
  }

  /** A child in its text, with the marks composed for its value. */
  predicate Site(text: string, pre: string, k: Kid, post: string, place: Place, m: CNode) {
    && text == pre + PrintKid(k) + post && NodeOk(k.node) && KidIn(place, k)
    && Composed(text, k.node, |pre + KidHead(k)|, m)
    && (place.Root? ==> pre == "")
    && (!InFlowPlace(place) ==> LineEnd(post) && Column(pre + KidLead(k), |pre + KidLead(k)|) == Col(place))
  }

  /** The slot the walk holds for that child; none at the root. */
  predicate Holds(text: string, pre: string, k: Kid, place: Place, m: CNode, holder: Option<Slot>) {
    match place
    case Root => holder == None
    case Child(flow, isMap, first, at) =>
      && holder.Some? && holder.value.value == m && holder.value.parent.CColl?
      && holder.value.parent.flow == flow && holder.value.key == KeyMark(k, |pre|)
      && (!flow ==> Column(text, holder.value.parent.start) == at)
  }

  // ---------------------------------------------------------------- cutting

  lemma Cut(a: string, b: string)
    ensures Upto(a + b, |a|) == a && From(a + b, |a|) == b
  {
  }

  lemma Cut3(a: string, b: string, c: string)
    ensures Upto(a + b + c, |a|) == a && From(a + b + c, |a + b|) == c
    ensures Slice(a + b + c, |a|, |a + b|) == b
  {
  }

  lemma ColumnPrefix(a: string, b: string)
    ensures Column(a + b, |a|) == Column(a, |a|)
  {
    LineStartPrefix(a, b);
  }

  lemma {:induction false} ColumnGrows(a: string, s: string)
    requires Lacks(s, '\n')
    ensures Column(a + s, |a + s|) == Column(a, |a|) + |s|
  {
    var t := a + s;
    var i, j := LineStart(t, |t|), LineStart(a, |a|);
    assert forall k | |a| <= k < |t| :: t[k] == s[k - |a|] && t[k] != '\n';
    assert forall k | 0 <= k < |a| :: t[k] == a[k];
  }

  /** A child's text, part by part. */
  lemma Parts(pre: string, k: Kid, post: string)
    ensures pre + PrintKid(k) + post
            == (pre + KidLead(k) + MarkText(k.mark)) + (k.gap + PrintBrs(k.drop)) + PrintNode(k.node) + k.tail + post
    ensures pre + KidHead(k) == (pre + KidLead(k) + MarkText(k.mark)) + (k.gap + PrintBrs(k.drop))
  {
    hide PrintNode, PrintBrs, MarkText, KidLead;
    assert KidHead(k) == KidLead(k) + MarkText(k.mark) + k.gap + PrintBrs(k.drop);
  }

  lemma ColonAt(text: string, l: string, src: string, sp: string, rest: string)
    requires text == (l + (src + sp + ":")) + rest && AllSpaces(sp)
    ensures FindChar(text, ':', |l| + |src|) == Some(|l| + |src| + |sp|)
    ensures Upto(text, |l| + |src| + |sp| + 1) == l + (src + sp + ":")
  {
    hide FindChar;
    var at := |l| + |src|;
    assert text[at + |sp|] == ':';
    assert forall i | at <= i < at + |sp| :: text[i] == sp[i - at];
    var r := FindChar(text, ':', at);
    assert r.Some?;
  }

  /** What the splicer's position helpers answer at a child. */
  lemma SiteEnd(text: string, pre: string, k: Kid, post: string, place: Place, m: CNode)
    requires Site(text, pre, k, post, place, m)
    ensures IsBlock(m) == IsBlockNode(k.node) && m.start == |pre + KidHead(k)|
    ensures !IsBlockNode(k.node) ==> m.end == ContentEnd(text, m) == |pre + KidHead(k) + PrintNode(k.node)|
    ensures !InFlowPlace(place) ==> Eol(text, ContentEnd(text, m)) == |pre + PrintKid(k)|
    ensures IsBlockNode(k.node) ==> k.tail == "" && !InFlowPlace(place)
  {
    hide PrintKid, PrintNode, NodeOk, KidHead, KidLead, ContentEnd, Eol, KidIn, Composed, Column, LineEnd, Solid,
         OneLine, PrintBrs;
    KidSplit(k);
    var lead := pre + KidHead(k);
    assert text == lead + PrintNode(k.node) + (k.tail + post);
    ContentEndIn(text, lead, k.node, k.tail + post, m);
    MarkShape(text, k.node, |lead|, m);
    if !IsBlockNode(k.node) {
      assert ContentEnd(text, m) == m.end;
    }
    TailFits(k, place);
    if !InFlowPlace(place) {
      EndGlue(text, pre, KidHead(k), PrintNode(k.node), k.tail, post, ContentEnd(text, m));
    }
  }

  lemma TailFits(k: Kid, place: Place)
    requires KidIn(place, k) && NodeOk(k.node)
             && (IsBlockNode(k.node) ==> PrintNode(k.node) != "" && Solid(PrintNode(k.node)))
    ensures IsBlockNode(k.node) ==> k.tail == "" && !InFlowPlace(place)
    ensures !InFlowPlace(place) ==>
              OneLine(k.tail) && KidHead(k) + PrintNode(k.node) + k.tail != ""
                      && Solid(KidHead(k) + PrintNode(k.node) + k.tail)
  {
    hide PrintKid, PrintNode, NodeOk, KidHead, BlockKidOk, Solid, OneLine, ReadScalar, RootOk;
    match place {
      case Root => RootTail(k);
      case Child(flow, isMap, first, at) =>
        if !flow {
          KidTailOk(k, at, first, isMap);
          KidSplit(k);
        }
    }
  }

  lemma MarkShape(text: string, n: Node, at: nat, m: CNode)
    requires Composed(text, n, at, m)
    ensures IsBlock(m) == IsBlockNode(n) && m.start == at
    ensures !IsBlockNode(n) ==> m.end == at + |PrintNode(n)|
    ensures m.CScalar? <==> !n.Coll?
    ensures n.Coll? ==> m.isMap == n.isMap && m.flow == n.flow && |m.value| == |n.kids|
    ensures m.CScalar? ==> m.isNull == (n.Scalar? && n.val.Null?)
  {
    hide PrintKids, KidHead, KeyMark, KidAt, PrintBrs;
  }

  lemma RootTail(k: Kid)
    requires RootOk(k) && NodeOk(k.node)
             && (IsBlockNode(k.node) ==> PrintNode(k.node) != "" && Solid(PrintNode(k.node)))
    ensures OneLine(k.tail) && (IsBlockNode(k.node) ==> k.tail == "")
    ensures KidHead(k) + PrintNode(k.node) + k.tail != "" && Solid(KidHead(k) + PrintNode(k.node) + k.tail)
  {
    hide PrintNode, NodeOk, Leads, KidHead;
    InlineSolid(k.node);
    if k.tail == "" {
      assert KidHead(k) + PrintNode(k.node) + k.tail == KidHead(k) + PrintNode(k.node);
      SolidCat(KidHead(k), PrintNode(k.node));
    } else {
      SolidCat(KidHead(k) + PrintNode(k.node), k.tail);
    }
  }

  // -------------------------------------------------------------- replacing

  /** A child with another value: its text up to the value is the same. */
  lemma NewNode(pre: string, k: Kid, post: string, node: Node, tail: string)
    ensures pre + PrintKid(k.(node := node, tail := tail)) + post == pre + KidHead(k) + PrintNode(node) + tail + post
  {
    hide PrintNode, PrintBrs, MarkText;
    assert KidHead(k.(node := node, tail := tail)) == KidHead(k);
  }

  /** A child with another value from its mark on. */
  lemma NewRest(pre: string, k: Kid, post: string, e: Kid)
    requires SameStart(k, e)
    ensures pre + PrintKid(e) + post
            == pre + KidLead(k) + MarkText(k.mark)
               + (e.gap + (PrintBrs(e.drop) + (PrintNode(e.node) + (e.tail + post))))
  {
    hide PrintNode, PrintBrs, MarkText;
    assert KidHead(e) == KidLead(k) + MarkText(k.mark) + e.gap + PrintBrs(e.drop);
  }

  /** The end of what a replacement takes out. */
  function OldEnd(text: string, m: CNode): nat {
    if IsBlock(m) then Eol(text, ContentEnd(text, m)) else m.end
  }

  /** The tail that stays when a value goes. */
  function TailLeft(k: Kid): string {
    if IsBlockNode(k.node) then "" else k.tail
  }

  lemma SiteCut(text: string, pre: string, k: Kid, post: string, place: Place, m: CNode)
    requires Site(text, pre, k, post, place, m)
    ensures Upto(text, m.start) == pre + KidHead(k)
    ensures From(text, OldEnd(text, m)) == TailLeft(k) + post
  {
    hide PrintKid, PrintNode, NodeOk, KidHead, ContentEnd, Eol, KidIn, Composed, LineStart, LineEnd;
    SiteEnd(text, pre, k, post, place, m);
    KidSplit(k);
    CutGlue(text, pre, KidHead(k), PrintNode(k.node), k.tail, post);
    if IsBlockNode(k.node) {
      assert text == (pre + PrintKid(k)) + post;
      Cut(pre + PrintKid(k), post);
      assert "" + post == post;
    }
  }

  lemma CutGlue(text: string, pre: string, h: string, p: string, tail: string, post: string)
    requires text == pre + (h + p + tail) + post
    ensures Upto(text, |pre + h|) == pre + h && From(text, |pre + h + p|) == tail + post
    ensures Slice(text, |pre + h + p|, |pre + (h + p + tail)|) == tail
    ensures From(text, |pre + (h + p + tail)|) == post
  {
    assert text == (pre + h) + (p + tail + post);
    assert text == (pre + h + p) + (tail + post);
    assert text == (pre + h + p) + tail + post;
    assert pre + (h + p + tail) == (pre + h + p) + tail;
    Cut(pre + h, p + tail + post);
    Cut3(pre + h + p, tail, post);
  }

  lemma ItemOfList(value: Value, dash: nat, nl: string)
    requires !(value.Dict? && value.pairs != [])
    ensures ItemText(value, dash, nl) == FlowText(value)
  {
    hide FlowText;
    var lines := ItemLines([value], dash);
    assert lines == ItemBody(value, dash) + ItemLines([], dash) by { assert [value][1..] == []; }
    assert lines == [Spaces(dash) + "- " + FlowText(value)];
    assert lines[0][dash + 2..] == FlowText(value);
    assert [lines[0][dash + 2..]] + lines[1..] == [FlowText(value)];
  }

  lemma ReplaceItemInline(text: string, pre: string, k: Kid, post: string, place: Place, m: CNode, slot: Slot,
          value: Value, asBlock: bool)
    requires Site(text, pre, k, post, place, m) && Holds(text, pre, k, place, m, Some(slot))
    requires InFlowPlace(place) || !asBlock || (NonemptyCollection(value) && !value.Dict?)
    ensures ReplaceItem(text, slot, value, asBlock)
            == pre + PrintKid(k.(node := FlowNode(value), tail := TailLeft(k))) + post
  {
    hide PrintKid, PrintNode, KidHead, ContentEnd, Eol, Site, Column, FlowText, FlowNode, Newline, ItemLines,
         IsBlockNode;
    SiteCut(text, pre, k, post, place, m);
    FlowNodePrints(value);
    NewNode(pre, k, post, FlowNode(value), TailLeft(k));
    if asBlock && !InFlowPlace(place) {
      ItemOfList(value, Col(place), Newline(text));
    }
    assert pre + KidHead(k) + FlowText(value) + TailLeft(k) + post
           == (pre + KidHead(k)) + FlowText(value) + (TailLeft(k) + post);
  }

  lemma ReplaceItemMapping(text: string, pre: string, k: Kid, post: string, place: Place, m: CNode, slot: Slot,
          value: Value)
    requires Site(text, pre, k, post, place, m) && Holds(text, pre, k, place, m, Some(slot))
    requires !InFlowPlace(place) && value.Dict? && value.pairs != []
    ensures ReplaceItem(text, slot, value, true)
            == pre + PrintKid(k.(node := ItemMapping(value, StartCol(k, Col(place)), Col(place), Newline(text),
               TailLeft(k)), tail := "")) + post
  {
    hide PrintKid, PrintNode, KidHead, ContentEnd, Eol, Site, Column, Newline, ItemLines, IsBlockNode, ItemMapping,
         StartCol, Join;
    var nl := Newline(text);
    var node := ItemMapping(value, StartCol(k, Col(place)), Col(place), nl, TailLeft(k));
    SiteCut(text, pre, k, post, place, m);
    ItemMappingPrints(value, StartCol(k, Col(place)), Col(place), nl, TailLeft(k));
    NewNode(pre, k, post, node, "");
    ItemGlue(pre + KidHead(k), PrintNode(node), ItemText(value, Col(place), nl), TailLeft(k), post);
  }

  /** `_replace_item`'s lines for a mapping, from the first key on. */
  function ItemText(value: Value, dash: nat, nl: string): string {
    var lines := ItemLines([value], dash);
    Join([lines[0][dash + 2..]] + lines[1..], nl)
  }

  lemma ItemGlue(head: string, node: string, item: string, tail: string, post: string)
    requires node == item + tail
    ensures head + node + "" + post == head + item + (tail + post)
  {
  }

  lemma ItemMappingPrints(value: Value, start: nat, dash: nat, nl: string, tail: string)
    requires value.Dict? && value.pairs != []
    ensures PrintNode(ItemMapping(value, start, dash, nl, tail)) == ItemText(value, dash, nl) + tail
  {
    hide EntryKids, PrintKids, PairLines, Spaces, Join, PrintNode, ItemText;
    BlockPrints(value, dash + 2, nl, tail);
    SameKids(value, start, dash, nl, tail);
    ItemTextIs(value, dash, nl);
    BodyJoined(value, dash, nl);
    var body := PairLines(value.pairs, dash + 2);
    IndentGlue(Spaces(dash + 2), PrintNode(ItemMapping(value, start, dash, nl, tail)),
               Join([body[0][dash + 2..]] + body[1..], nl), tail);
  }

  lemma SameKids(value: Value, start: nat, dash: nat, nl: string, tail: string)
    requires value.Dict? && value.pairs != []
    ensures PrintNode(ItemMapping(value, start, dash, nl, tail)) == PrintNode(BlockNode(value, dash + 2, nl, tail))
  {
    hide EntryKids, PrintKids;
    BareBlock(BlockNode(value, dash + 2, nl, tail));
    BareBlock(ItemMapping(value, start, dash, nl, tail));
  }

  lemma ItemTextIs(value: Value, dash: nat, nl: string)
    requires value.Dict? && value.pairs != []
    ensures var body := PairLines(value.pairs, dash + 2);
            ItemText(value, dash, nl) == Join([body[0][dash + 2..]] + body[1..], nl)
  {
    hide PairLines, Spaces, Join, ItemBody;
    var body := PairLines(value.pairs, dash + 2);
    var lines := ItemLines([value], dash);
    assert lines == ItemBody(value, dash) by {
      assert [value][0..] == [value] && [value][1..] == [];
      NoItems(dash);
      FirstItem([value], 0, dash);
    }
    ItemBodyOf(value, dash);
    assert lines[0][dash + 2..] == body[0][dash + 2..] && lines[1..] == body[1..];
  }

  /** A key's colon, and what precedes its value. */
  lemma KeyCut(text: string, pre: string, k: Kid, post: string, place: Place, m: CNode, slot: Slot)
    requires Site(text, pre, k, post, place, m) && Holds(text, pre, k, place, m, Some(slot)) && k.mark.Key?
    ensures slot.key == KeyMark(k, |pre|) && slot.key.Some?
    ensures var colon := FindChar(text, ':', slot.key.value.end);
            colon.Some? && Upto(text, colon.value + 1) == pre + KidLead(k) + MarkText(k.mark)
    ensures !InFlowPlace(place) ==> Column(text, slot.key.value.start) == Col(place)
  {
    hide PrintNode, NodeOk, KidLead, Composed, LineStart, LineEnd, FindChar, Upto, PrintBrs, Placed, Leads, PrintKid,
         ReadScalar, FlowBlank, Comma;
    Parts(pre, k, post);
    var l := pre + KidLead(k);
    var rest := (k.gap + PrintBrs(k.drop)) + PrintNode(k.node) + k.tail + post;
    KeyGlue(l + MarkText(k.mark), k.gap + PrintBrs(k.drop), PrintNode(k.node), k.tail, post);
    assert text == (l + (k.mark.src + k.mark.sp + ":")) + rest;
    ColonAt(text, l, k.mark.src, k.mark.sp, rest);
    assert text == l + ((k.mark.src + k.mark.sp + ":") + rest);
    ColumnPrefix(l, (k.mark.src + k.mark.sp + ":") + rest);
  }

  lemma KeyGlue(a: string, b: string, c: string, d: string, e: string)
    ensures a + b + c + d + e == a + (b + c + d + e)
  {
  }

  lemma ReplaceInline(text: string, pre: string, k: Kid, post: string, place: Place, m: CNode, value: Value)
    requires Site(text, pre, k, post, place, m)
    ensures pre + KidLead(k) + MarkText(k.mark) + " " + FlowText(value) + From(text, OldEnd(text, m))
            == pre + PrintKid(k.(gap := " ", drop := [], node := FlowNode(value), tail := TailLeft(k))) + post
  {
    hide PrintKid, PrintNode, Site, FlowText, FlowNode, IsBlockNode, OldEnd, MarkText, KidLead, From, PrintBrs;
    SiteCut(text, pre, k, post, place, m);
    FlowNodePrints(value);
    var e := k.(gap := " ", drop := [], node := FlowNode(value), tail := TailLeft(k));
    NewRest(pre, k, post, e);
    EmptyBrs();
    InlineValueGlue(pre + KidLead(k) + MarkText(k.mark), FlowText(value), TailLeft(k), post);
  }

  lemma InlineValueGlue(m: string, f: string, t: string, post: string)
    ensures m + " " + f + (t + post) == m + (" " + ("" + (f + (t + post))))
  {
  }

  /** A block collection under a key: a line break, and the lines without the first indentation. */
  lemma BlockUnder(pre: string, k: Kid, post: string, gap: string, indent: nat, node: Node, lines: string, tail: string,
          nl: string)
    requires Spaces(indent) + PrintNode(node) == lines + tail
    ensures pre + PrintKid(k.(gap := gap, drop := [Br(nl, indent, "")], node := node, tail := "")) + post
            == pre + KidLead(k) + MarkText(k.mark) + gap + nl + lines + (tail + post)
  {
    hide PrintKid, PrintNode, PrintBrs, MarkText, KidLead, Spaces;
    var e := k.(gap := gap, drop := [Br(nl, indent, "")], node := node, tail := "");
    NewRest(pre, k, post, e);
    OneBr(nl, indent);
    var m := pre + KidLead(k) + MarkText(k.mark);
    var s := Spaces(indent);
    var n := PrintNode(node);
    assert m + (gap + ((nl + s) + (n + ("" + post)))) == m + gap + nl + lines + (tail + post) by {
      assert m + (gap + ((nl + s) + (n + ("" + post)))) == m + gap + nl + (s + n) + post;
    }
  }

  lemma ReplaceBlock(text: string, pre: string, k: Kid, post: string, place: Place, m: CNode, value: Value, indent: nat)
    requires Site(text, pre, k, post, place, m) && NonemptyCollection(value) && !InFlowPlace(place)
    ensures var nl := Newline(text);
            var lines := Join(CollectionLines(value, indent), nl);
            var lineEnd := Eol(text, m.end);
            var head := pre + KidLead(k) + MarkText(k.mark);
            pre + PrintKid(k.(gap := if IsBlockNode(k.node) then "" else k.tail, drop := [Br(nl, indent, "")],
                              node := BlockNode(value, indent, nl, ""), tail := "")) + post
            == if IsBlockNode(k.node) then head + nl + lines + From(text, OldEnd(text, m))
               else head + Slice(text, m.end, lineEnd) + nl + lines + From(text, lineEnd)
  {
    hide PrintKid, PrintNode, KidIn, NodeOk, Composed, BlockNode, MarkText, KidLead, Eol, PairLines, ItemLines, Join,
         Newline, Spaces, LineEnd, Column, ContentEnd, KidHead;
    var nl := Newline(text);
    var lines := Join(CollectionLines(value, indent), nl);
    BlockPrints(value, indent, nl, "");
    var gap := if IsBlockNode(k.node) then "" else k.tail;
    BlockUnder(pre, k, post, gap, indent, BlockNode(value, indent, nl, ""), lines, "", nl);
    SiteCut(text, pre, k, post, place, m);
    SiteEnd(text, pre, k, post, place, m);
    KidSplit(k);
    CutGlue(text, pre, KidHead(k), PrintNode(k.node), k.tail, post);
    assert "" + post == post;
    var head := pre + KidLead(k) + MarkText(k.mark);
    assert head + "" == head;
  }

  // ---------------------------------------------------------------- columns

  /** After a lead's last line break comes its indentation. */
  lemma LeadsColumn(a: string, brs: seq<Br>, col: nat)
    requires Leads(brs, col)
    ensures Column(a + PrintBrs(brs), |a + PrintBrs(brs)|) == col
  {
    hide PrintBrs;
    var b := brs[|brs| - 1];
    assert b in brs;
    LastBr(brs);
    var front := a + PrintBrs(brs[..|brs| - 1]);
    assert a + PrintBrs(brs) == front + b.nl + Spaces(b.pad);
    assert Column(front + b.nl + Spaces(col), |front + b.nl + Spaces(col)|) == col by {
      LineStartAt(front + b.nl, Spaces(col), "", col);
      assert front + b.nl + Spaces(col) + "" == front + b.nl + Spaces(col);
      assert Spaces(col)[..col] == Spaces(col);
    }
  }

  /** The column a child's value starts at, in the text. */
  lemma StartColumn(pre: string, k: Kid, col: nat)
    requires if k.drop == [] then AllSpaces(k.gap) && OneLine(MarkText(k.mark)) else Leads(k.drop, StartCol(k, col))
    requires Column(pre + KidLead(k), |pre + KidLead(k)|) == col
    ensures Column(pre + KidHead(k), |pre + KidHead(k)|) == StartCol(k, col)
  {
    hide PrintBrs, Column, KidLead, MarkText, OneLine, Leads;
    if k.drop == [] {
      EmptyBrs();
      assert pre + KidHead(k) == (pre + KidLead(k)) + (MarkText(k.mark) + k.gap);
      assert Lacks(MarkText(k.mark) + k.gap, '\n') by { MarkGap(MarkText(k.mark), k.gap); }
      ColumnGrows(pre + KidLead(k), MarkText(k.mark) + k.gap);
    } else {
      var front := pre + (KidLead(k) + MarkText(k.mark) + k.gap);
      assert pre + KidHead(k) == front + PrintBrs(k.drop);
      LeadsColumn(front, k.drop, StartCol(k, col));
    }
  }

  lemma MarkGap(mark: string, gap: string)
    requires OneLine(mark) && AllSpaces(gap)
    ensures Lacks(mark + gap, '\n')
  {
  }

  /** A block collection's marks: where it starts, and at which column. */
  lemma NodeShape(text: string, pre: string, k: Kid, post: string, place: Place, m: CNode)
    requires Site(text, pre, k, post, place, m)
    ensures m.start == |pre + KidHead(k)| && (m.CScalar? <==> !k.node.Coll?)
    ensures k.node.Coll? ==> m.isMap == k.node.isMap && m.flow == k.node.flow && |m.value| == |k.node.kids|
    ensures m.CScalar? ==> m.isNull == (k.node.Scalar? && k.node.val.Null?)
    ensures k.node.Coll? && !k.node.flow ==> !InFlowPlace(place) && Column(text, m.start) == k.node.col
  {
    hide PrintKid, NodeOk, KidLead, Composed, LineEnd, PrintBrs, KidHead, Column, StartCol;
    MarkShape(text, k.node, |pre + KidHead(k)|, m);
    if k.node.Coll? && !k.node.flow {
      assert k.drop == [] ==> OneLine(MarkText(k.mark)) by {
        hide Leads, Placed, FlowBlank, Comma, ReadScalar, PrintNode;
      }
      StartColumn(pre, k, Col(place));
      KidSplit(k);
      assert text == (pre + KidHead(k)) + (PrintNode(k.node) + k.tail + post);
      ColumnPrefix(pre + KidHead(k), PrintNode(k.node) + k.tail + post);
    }
  }

  // ------------------------------------------------------- literal blocks

  lemma {:induction false} BrokenPrints(raw: seq<string>, indent: nat, nl: string)
    requires raw != []
    ensures PrintBrs(Broken(raw, indent, nl)) == nl + Join(Indented(raw, indent), nl)
  {
    hide Broken, Indented, Join, PrintBrs;
    var brs := Broken(raw, indent, nl);
    var ind := Indented(raw, indent);
    BrokenFirst(raw, indent, nl);
    assert PrintBr(Br(nl, if raw[0] == "" then 0 else indent, raw[0])) == nl + if raw[0] == "" then ""
           else Spaces(indent) + raw[0] by {
      if raw[0] == "" {
        assert nl + Spaces(0) + "" == nl + "";
      } else {
        assert nl + Spaces(indent) + raw[0] == nl + (Spaces(indent) + raw[0]);
      }
    }
    if |raw| > 1 {
      BrokenPrints(raw[1..], indent, nl);
      JoinConcat([ind[0]], ind[1..], nl);
      assert ind == [ind[0]] + ind[1..];
      OneJoin(ind[0], nl);
      BrokenGlue(nl, ind[0], Join(ind[1..], nl));
    } else {
      assert raw[1..] == [];
      assert ind == [ind[0]];
      OneJoin(ind[0], nl);
      EmptyBrs();
      assert nl + ind[0] + "" == nl + ind[0];
    }
  }

  lemma BrokenFirst(raw: seq<string>, indent: nat, nl: string)
    requires raw != []
    ensures PrintBrs(Broken(raw, indent, nl))
            == PrintBr(Br(nl, if raw[0] == "" then 0 else indent, raw[0])) + PrintBrs(Broken(raw[1..], indent, nl))
    ensures Indented(raw, indent) == [if raw[0] == "" then "" else Spaces(indent) + raw[0]] + Indented(raw[1..], indent)
    ensures |raw| == 1 ==> Broken(raw[1..], indent, nl) == []
  {
    hide PrintBr, Spaces, Indented;
    var brs := Broken(raw, indent, nl);
    assert brs[1..] == Broken(raw[1..], indent, nl);
  }

  lemma OneJoin(line: string, nl: string)
    ensures Join([line], nl) == line
  {
  }

  lemma BrokenGlue(nl: string, first: string, rest: string)
    ensures (nl + first) + (nl + rest) == nl + (first + nl + rest)
  {
  }

  lemma LiteralNodePrints(note: string, text: string, indent: nat, nl: string)
    requires BlockScalar(text, indent).Some?
    ensures var lines := BlockScalar(text, indent).value;
            lines != [] && PrintNode(LiteralNode(note, text, indent, nl))
              == lines[0] + note + (nl + Join(lines[1..], nl))
  {
    hide Blank, PrintBrs, Join, Indented, Broken;
    var raw := SplitLines(Body(text));
    BrokenPrints(raw, indent, nl);
    assert BlockScalar(text, indent).value[1..] == Indented(raw, indent);
  }

  /** The header of a literal block and the remark after it. */
  lemma HeaderAt(text: string, head: string, n: Node, post: string)
    requires n.Literal? && NodeOk(n) && text == head + PrintNode(n) + post
    ensures var bar := if n.clip then "|" else "|-";
            var headEnd := Eol(text, |head|);
            headEnd == |head + bar + n.note| && HeaderEnd(text, |head|, headEnd) == Some(|head + bar|)
            && Slice(text, |head + bar|, headEnd) == n.note
  {
    hide PrintBrs, Lines, ReadBlock, BlockIndent, HasInk, Eol, Slice;
    var bar := if n.clip then "|" else "|-";
    var rest := PrintBrs(n.body) + post;
    assert n.body[0] in n.body;
    BreakFirst(n.body, post);
    assert text == head + (bar + n.note) + rest;
    assert Solid(head + (bar + n.note)) && OneLine(bar + n.note) by {
      hide Remark;
      if n.note != "" {
        assert (head + (bar + n.note))[|head + (bar + n.note)| - 1] == n.note[|n.note| - 1];
      }
    }
    EolAt(head, bar + n.note, rest, 0);
    assert (bar + n.note)[0..] == bar + n.note;
    assert head + (bar + n.note) == head + bar + n.note;
    assert text == (head + bar) + n.note + rest;
    Cut3(head + bar, n.note, rest);
    IndicatorsEnd(text, head, bar, n.note, rest);
  }

  lemma BreakFirst(brs: seq<Br>, post: string)
    requires brs != [] && LineBreak(brs[0].nl)
    ensures LineEnd(PrintBrs(brs) + post)
  {
    hide Spaces;
    var s := PrintBrs(brs) + post;
    assert s[0] == brs[0].nl[0] && (|brs[0].nl| == 2 ==> s[1] == brs[0].nl[1]);
  }

  lemma IndicatorsEnd(text: string, head: string, bar: string, note: string, rest: string)
    requires text == (head + bar) + note + rest && Trailing(note) && (bar == "|" || bar == "|-")
    ensures HeaderEnd(text, |head|, |head + bar + note|) == Some(|head + bar|)
  {
    hide Remark, OneLine;
    var end := |head + bar + note|;
    assert text[|head|] == bar[0];
    if bar == "|-" { assert text[|head| + 1] == '-'; }
    if note != "" { assert text[|head + bar|] == note[0]; }
    assert Indicators(text, |head + bar|, end) == |head + bar|;
  }

  lemma ReplaceLiteral(text: string, pre: string, k: Kid, post: string, place: Place, m: CNode, key: CKey,
          value: string)
    requires Site(text, pre, k, post, place, m) && k.node.Literal?
    requires Column(text, key.start) == Col(place) && BlockScalar(value, Col(place) + 2).Some?
    ensures ReplaceBlockScalar(text, key, m, value, OldEnd(text, m))
            == Some(pre + PrintKid(k.(node := LiteralNode(k.node.note, value, Col(place) + 2, Newline(text)))) + post)
  {
    hide PrintKid, PrintNode, KidIn, NodeOk, Composed, LiteralNode, Eol, Join, Newline, Column, BlockScalar, HeaderEnd,
         Slice, KidHead, KidLead, PrintBrs, Upto, From, ContentEnd, LineEnd;
    var nl := Newline(text);
    SiteEnd(text, pre, k, post, place, m);
    SiteCut(text, pre, k, post, place, m);
    KidSplit(k);
    var head := pre + KidHead(k);
    assert text == head + PrintNode(k.node) + (k.tail + post);
    HeaderAt(text, head, k.node, k.tail + post);
    LiteralNodePrints(k.node.note, value, Col(place) + 2, nl);
    NewNode(pre, k, post, LiteralNode(k.node.note, value, Col(place) + 2, nl), "");
    var lines := BlockScalar(value, Col(place) + 2).value;
    assert k.(node := LiteralNode(k.node.note, value, Col(place) + 2, nl), tail := "")
           == k.(node := LiteralNode(k.node.note, value, Col(place) + 2, nl));
    var body := Join(lines[1..], nl);
    assert head + (lines[0] + k.node.note + (nl + body)) + "" + post
           == head + lines[0] + k.node.note + nl + body + ("" + post);
  }

  /** `_replace` prints the tree with that child's value replaced. */
  lemma ReplacePrints(text: string, pre: string, k: Kid, post: string, place: Place, m: CNode, slot: Slot, value: Value,
          flow: bool)
    requires Site(text, pre, k, post, place, m) && Holds(text, pre, k, place, m, Some(slot))
    ensures Replace(text, slot, value, flow)
            == Ok(pre + PrintKid(ReplaceKid(k, InFlowPlace(place), Col(place), value, flow, Newline(text))) + post)
  {
    hide *;
    if k.mark.Key? {
      ReplaceUnderKey(text, pre, k, post, place, m, slot, value, flow);
    } else {
      ReplaceUnmarked(text, pre, k, post, place, m, slot, value, flow);
    }
  }

  lemma ReplaceUnmarked(text: string, pre: string, k: Kid, post: string, place: Place, m: CNode, slot: Slot,
          value: Value,
          flow: bool)
    requires Site(text, pre, k, post, place, m) && Holds(text, pre, k, place, m, Some(slot)) && !k.mark.Key?
    ensures Replace(text, slot, value, flow)
            == Ok(pre + PrintKid(ReplaceKid(k, InFlowPlace(place), Col(place), value, flow, Newline(text))) + post)
  {
    hide PrintKid, PrintNode, KidIn, NodeOk, FlowText, FlowNode, BlockNode, ItemMapping, LiteralNode, Eol, Join,
         Newline, Column, BlockScalar, ReplaceBlockScalar, ReplaceItem, CollectionLines, FindChar, Slice, ContentEnd,
         KidHead, KidLead, MarkText, StartCol, Composed, KeyMark, Site;
    SiteEnd(text, pre, k, post, place, m);
    NodeShape(text, pre, k, post, place, m);
    KeyBefore(k, |pre|);
    var asBlock := AsBlock(k, InFlowPlace(place), value, flow);
    if asBlock && value.Dict? {
      ReplaceItemMapping(text, pre, k, post, place, m, slot, value);
    } else {
      ReplaceItemInline(text, pre, k, post, place, m, slot, value, asBlock);
    }
  }

  lemma LiteralRefused(text: string, key: CKey, m: CNode, value: string, end: nat)
    requires BlockScalar(value, Column(text, key.start) + 2).None?
    ensures ReplaceBlockScalar(text, key, m, value, end) == None
  {
  }

  lemma ReplaceUnderKey(text: string, pre: string, k: Kid, post: string, place: Place, m: CNode, slot: Slot,
          value: Value,
          flow: bool)
    requires Site(text, pre, k, post, place, m) && Holds(text, pre, k, place, m, Some(slot)) && k.mark.Key?
    ensures Replace(text, slot, value, flow)
            == Ok(pre + PrintKid(ReplaceKid(k, InFlowPlace(place), Col(place), value, flow, Newline(text))) + post)
  {
    hide PrintKid, PrintNode, KidIn, NodeOk, FlowText, FlowNode, BlockNode, ItemMapping, LiteralNode, Eol, Join,
         Newline, Column, BlockScalar, ReplaceBlockScalar, ReplaceItem, CollectionLines, FindChar, Slice, ContentEnd,
         KidHead, KidLead, MarkText, StartCol, Composed, KeyMark, Site;
    SiteEnd(text, pre, k, post, place, m);
    NodeShape(text, pre, k, post, place, m);
    KeyBefore(k, |pre|);
    var asBlock := AsBlock(k, InFlowPlace(place), value, flow);
    KeyCut(text, pre, k, post, place, m, slot);
    if k.node.Literal? && value.Str? && BlockScalar(value.text, Col(place) + 2).Some? {
      ReplaceLiteral(text, pre, k, post, place, m, slot.key.value, value.text);
    } else {
      if k.node.Literal? && value.Str? {
        LiteralRefused(text, slot.key.value, m, value.text, OldEnd(text, m));
      }
      if asBlock {
        ReplaceBlock(text, pre, k, post, place, m, value,
                     if IsBlockNode(k.node) && k.node.Coll? then k.node.col else Col(place) + 2);
      } else {
        ReplaceInline(text, pre, k, post, place, m, value);
      }
    }
  }
}
