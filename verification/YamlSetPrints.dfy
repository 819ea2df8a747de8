/**
 `set_value` on the text of a document is the printing of the edited document, and
 fails exactly when the edit of the tree does.
 */
module YamlSetPrints {
  import opened Text
  import opened YamlValue
  import opened YamlEmit
  import opened YamlBlock
  import opened YamlTree
  import opened YamlBuild
  import opened YamlEdit
  import opened YamlMarks
  import opened YamlSplice
  import opened YamlSplicePrints

  // ---------------------------------------------------------------- growing

  /** One more child at a collection's end. */
  lemma GrownNode(n: Node, kid: Kid)
    requires n.Coll? && n.kids != []
    ensures PrintNode(n.(kids := n.kids + [kid])) == Open(n) + PrintKids(n.kids) + (PrintKid(kid) + Close(n))
    ensures PrintNode(n) == Open(n) + PrintKids(n.kids) + Close(n)
  {
    hide PrintKid, PrintKids;
    PrintKidsConcat(n.kids, [kid]);
    OneKid(kid);
    var g := n.(kids := n.kids + [kid]);
    assert PrintNode(g) == Open(n) + PrintKids(g.kids) + Close(n);
  }

  lemma OneKid(kid: Kid)
    ensures PrintKids([kid]) == PrintKid(kid)
  {
    hide PrintKid;
    KidsCons(kid, []);
    NoKids();
    assert [kid] + [] == [kid];
  }

  /** The end of the last child of a nonempty flow collection. */
  lemma FlowLast(text: string, head: string, n: Node, rest: string, m: CNode)
    requires n.Coll? && n.flow && n.kids != [] && NodeOk(n) && text == head + PrintNode(n) + rest
    requires Composed(text, n, |head|, m)
    ensures m.CColl? && m.value != []
    ensures var at := ContentEnd(text, m.value[|m.value| - 1].value);
            Upto(text, at) == head + Open(n) + PrintKids(n.kids) && From(text, at) == Close(n) + rest
  {
    hide PrintNode, PrintKids, PrintKid, KidHead, NodeOk, FlowKidOk, ContentEnd, Composed, KeyMark;
    var last := |n.kids| - 1;
    var k := n.kids[last];
    FlowFacts(text, n, |head|, m);
    BlockSplit(n, last);
    assert n.kids[last + 1..] == [];
    NoKids();
    PrintKidsAt(n.kids, last);
    KidSplit(k);
    var pre := head + Open(n) + PrintKids(n.kids[..last]);
    assert k.tail == "" && !IsBlockNode(k.node) by { PlainFlowKid(k, last == 0, n.isMap); }
    var front := PrintKids(n.kids[..last]);
    var kh := KidHead(k);
    var kn := PrintNode(k.node);
    assert head + (Open(n) + front + (kh + kn + "") + ("" + Close(n))) + rest
           == (head + Open(n) + front + kh) + kn + (Close(n) + rest);
    assert head + Open(n) + (front + (kh + kn + "") + "") == (head + Open(n) + front) + kh + kn;
    assert text == (pre + KidHead(k)) + PrintNode(k.node) + (Close(n) + rest);
    assert |pre + KidHead(k)| == KidAt(n, |head|, last) + |KidHead(k)|;
    ContentEndIn(text, pre + KidHead(k), k.node, Close(n) + rest, m.value[last].value);
    Cut(pre + KidHead(k) + PrintNode(k.node), Close(n) + rest);
    assert pre + KidHead(k) + PrintNode(k.node) == head + Open(n) + PrintKids(n.kids);
  }

  lemma PlainFlowKid(k: Kid, first: bool, isMap: bool)
    requires FlowKidOk(k, first, isMap)
    ensures k.tail == "" && !IsBlockNode(k.node)
  {
    hide FlowBlank, Comma, ReadScalar, PrintNode;
  }

  lemma FlowFacts(text: string, n: Node, at: nat, m: CNode)
    requires n.Coll? && n.flow && NodeOk(n) && Composed(text, n, at, m)
    ensures m.CColl? && m.flow && m.isMap == n.isMap && m.start == at && |m.value| == |n.kids|
            && m.end == at + |PrintNode(n)|
    ensures forall i | 0 <= i < |n.kids| ::
              && NodeOk(n.kids[i].node) && FlowKidOk(n.kids[i], i == 0, n.isMap)
              && m.value[i].key == KeyMark(n.kids[i], KidAt(n, at, i))
              && Composed(text, n.kids[i].node, KidAt(n, at, i) + |KidHead(n.kids[i])|, m.value[i].value)
  {
    hide FlowKidOk, BlockKidOk, KidHead, KeyMark, PrintNode, PrintKids, Follows, FlowBlank, Comma;
  }

  /** A child whose collection takes one more at its end: the text around stays. */
  lemma GrownKid(text: string, pre: string, k: Kid, post: string, kid: Kid)
    requires k.node.Coll? && k.node.kids != []
    ensures pre + PrintKid(k.(node := k.node.(kids := k.node.kids + [kid]))) + post
            == (pre + KidHead(k) + Open(k.node) + PrintKids(k.node.kids)) + PrintKid(kid)
               + (Close(k.node) + (k.tail + post))
  {
    hide PrintNode, PrintKids, PrintKid, KidHead, Open, Close;
    var n := k.node;
    var g := n.(kids := n.kids + [kid]);
    GrownNode(n, kid);
    NewNode(pre, k, post, g, k.tail);
    assert k.(node := g, tail := k.tail) == k.(node := g);
    var a := pre + KidHead(k);
    assert a + (Open(n) + PrintKids(n.kids) + (PrintKid(kid) + Close(n))) + k.tail + post
           == (a + Open(n) + PrintKids(n.kids)) + PrintKid(kid) + (Close(n) + (k.tail + post));
  }

  /** Where a nonempty flow collection grows. */
  lemma FlowGrows(text: string, pre: string, k: Kid, post: string, place: Place, m: CNode, kid: Kid, more: string)
    requires Site(text, pre, k, post, place, m) && k.node.Coll? && k.node.flow && k.node.kids != []
    requires PrintKid(kid) == ", " + more
    ensures m.CColl? && m.value != []
    ensures var at := ContentEnd(text, m.value[|m.value| - 1].value);
            Upto(text, at) + ", " + more + From(text, at)
            == pre + PrintKid(k.(node := k.node.(kids := k.node.kids + [kid]))) + post
  {
    hide PrintNode, PrintKids, PrintKid, KidHead, NodeOk, ContentEnd, Composed, KidIn, Upto, From, Open, Close, LineEnd,
         Column;
    KidSplit(k);
    assert text == (pre + KidHead(k)) + PrintNode(k.node) + (k.tail + post);
    FlowLast(text, pre + KidHead(k), k.node, k.tail + post, m);
    GrownKid(text, pre, k, post, kid);
    var a := pre + KidHead(k) + Open(k.node) + PrintKids(k.node.kids);
    var b := Close(k.node) + (k.tail + post);
    assert a + ", " + more + b == a + (", " + more) + b;
  }

  /** Where a block collection grows: at the end of its last line. */
  lemma BlockGrows(text: string, pre: string, k: Kid, post: string, place: Place, m: CNode, kid: Kid, more: string)
    requires Site(text, pre, k, post, place, m) && k.node.Coll? && !k.node.flow && PrintKid(kid) == more
    ensures var at := Eol(text, ContentEnd(text, m));
            Upto(text, at) + more + From(text, at)
            == pre + PrintKid(k.(node := k.node.(kids := k.node.kids + [kid]))) + post
  {
    hide PrintNode, PrintKids, PrintKid, KidHead, NodeOk, ContentEnd, Composed, KidIn, Upto, From, LineEnd, Column,
         Eol, BlockKidOk, KeyMark;
    SiteEnd(text, pre, k, post, place, m);
    assert text == (pre + PrintKid(k)) + post;
    Cut(pre + PrintKid(k), post);
    BlockFacts(text, k.node, |pre + KidHead(k)|, m);
    GrownKid(text, pre, k, post, kid);
    KidSplit(k);
    GrownNode(k.node, kid);
    BlockGrowGlue(pre, KidHead(k), PrintKids(k.node.kids), more, post);
  }

  lemma BlockGrowGlue(pre: string, h: string, kids: string, more: string, post: string)
    ensures pre + (h + ("" + kids + "") + "") + more + post == (pre + h + "" + kids) + more + ("" + ("" + post))
  {
  }

  /** A key's empty flow collection opened as a block. */
  lemma OpenedPrints(text: string, pre: string, k: Kid, post: string, place: Place, m: CNode, slot: Slot, node: Node,
          lines: string)
    requires Site(text, pre, k, post, place, m) && Holds(text, pre, k, place, m, Some(slot)) && k.mark.Key?
    requires k.node.Coll? && k.node.flow
    requires Spaces(Col(place) + 2) + PrintNode(node) == lines + k.tail
    ensures var colon := FindChar(text, ':', slot.key.value.end);
            slot.key.Some? && colon.Some? &&
            Upto(text, colon.value + 1) + Newline(text) + lines + From(text, m.end)
            == pre + PrintKid(Opened(k, Col(place), node, Newline(text))) + post
  {
    hide PrintNode, PrintKid, KidHead, NodeOk, ContentEnd, Composed, KidIn, Upto, From, LineEnd, Column, Newline,
         FindChar, Spaces, KidLead, MarkText;
    KeyCut(text, pre, k, post, place, m, slot);
    MarkShape(text, k.node, |pre + KidHead(k)|, m);
    SiteCut(text, pre, k, post, place, m);
    BlockUnder(pre, k, post, "", Col(place) + 2, node, lines, k.tail, Newline(text));
    assert (pre + KidLead(k) + MarkText(k.mark)) + "" == pre + KidLead(k) + MarkText(k.mark);
  }

  /** An empty flow collection replaced where it stands. */
  lemma FlowFilled(text: string, pre: string, k: Kid, post: string, place: Place, m: CNode, v: Value)
    requires Site(text, pre, k, post, place, m) && k.node.Coll? && k.node.flow
    ensures m.CColl? && Upto(text, m.start) + FlowText(v) + From(text, m.end)
            == pre + PrintKid(k.(node := FlowNode(v))) + post
  {
    hide PrintNode, PrintKid, KidHead, NodeOk, ContentEnd, Composed, KidIn, Upto, From, LineEnd, Column, FlowText,
         FlowNode;
    MarkShape(text, k.node, |pre + KidHead(k)|, m);
    SiteCut(text, pre, k, post, place, m);
    FlowNodePrints(v);
    NewNode(pre, k, post, FlowNode(v), k.tail);
    assert k.(node := FlowNode(v), tail := k.tail) == k.(node := FlowNode(v));
    var a := pre + KidHead(k);
    var f := FlowText(v);
    assert a + f + (k.tail + post) == a + f + k.tail + post;
  }

  lemma FlowDictText(pairs: seq<Pair>)
    ensures FlowText(Dict(pairs)) == "{" + FlowPairs(pairs) + "}"
  {
  }

  lemma FlowItemPrints(v: Value)
    ensures PrintKid(FlowItem(false, v)) == ", " + FlowText(v)
  {
    hide PrintKid, PrintNode, FlowNode, FlowText;
    FlowNodePrints(v);
    PlainKidPrints(FlowItem(false, v));
    assert "" + ("" + (FlowText(v) + "")) == FlowText(v);
  }

  lemma FlowEntryPrints(key: string, v: Value)
    ensures PrintKid(FlowEntry(false, key, v)) == ", " + (Quote(key) + ": " + FlowText(v))
  {
    hide PrintKid, PrintNode, FlowNode, FlowText, Quote;
    FlowNodePrints(v);
    PlainKidPrints(FlowEntry(false, key, v));
    var q := Quote(key);
    var f := FlowText(v);
    assert (q + "" + ":") + (" " + (f + "")) == q + ": " + f;
  }

  lemma NewItemPrints(v: Value, col: nat, nl: string)
    ensures PrintKid(ItemKid(v, col, nl, [Br(nl, col, "")], "")) == nl + Join(ItemLines([v], col), nl)
  {
    hide PrintKid, ItemKid, ItemBody, Join, Spaces, PrintBrs;
    ItemPrints(v, col, nl, "");
    ItemKidLead(v, col, nl, [Br(nl, col, "")], "");
    LeadPrints(ItemKid(v, col, nl, [], ""), [Br(nl, col, "")]);
    OneBr(nl, col);
    assert ItemLines([v], col)
           == ItemBody(v, col) by { assert [v][1..] == []; assert ItemBody(v, col) + [] == ItemBody(v, col); }
    NewKidGlue(nl, Spaces(col), PrintKid(ItemKid(v, col, nl, [], "")), Join(ItemBody(v, col), nl));
  }

  lemma NewKidGlue(nl: string, s: string, kid: string, lines: string)
    requires s + kid == lines + ""
    ensures (nl + s) + kid == nl + lines
  {
    assert (nl + s) + kid == nl + (s + kid);
  }

  lemma NewEntryPrints(key: string, v: Value, col: nat, flow: bool, nl: string, root: bool)
    ensures var lead := (if root then [Br(nl, 0, "")] else []) + [Br(nl, col, "")];
            PrintKid(EntryKid(key, v, col, flow, nl, lead, ""))
            == (if root then nl + nl else nl) + Join(EntryLines(key, v, col, flow), nl)
  {
    hide *;
    var lead := (if root then [Br(nl, 0, "")] else []) + [Br(nl, col, "")];
    EntryPrints(key, v, col, flow, nl, "");
    EntryKidAnyLead(key, v, col, flow, nl, lead);
    LeadPrints(EntryKid(key, v, col, flow, nl, [], ""), lead);
    OneBr(nl, col);
    var kid := PrintKid(EntryKid(key, v, col, flow, nl, [], ""));
    NewKidGlue(nl, Spaces(col), kid, Join(EntryLines(key, v, col, flow), nl));
    if root {
      PrintBrsConcat([Br(nl, 0, "")], [Br(nl, col, "")]);
      OneBr(nl, 0);
      assert PrintBrs([Br(nl, 0, "")]) == nl by { NoSpaces(nl); }
      assert nl + (nl + Spaces(col)) + kid == nl + ((nl + Spaces(col)) + kid);
      assert nl + (nl + Join(EntryLines(key, v, col, flow), nl)) == nl + nl + Join(EntryLines(key, v, col, flow), nl);
    } else {
      assert lead == [Br(nl, col, "")];
    }
  }

  lemma NoSpaces(nl: string)
    ensures nl + Spaces(0) == nl
  {
  }

  lemma EntryKidAnyLead(key: string, v: Value, col: nat, flow: bool, nl: string, lead: seq<Br>)
    ensures var k := EntryKid(key, v, col, flow, nl, [], "");
            k.sep == "" && k.lead == [] && EntryKid(key, v, col, flow, nl, lead, "") == k.(lead := lead)
  {
    hide FlowNode, BlockNode;
  }

  /** `_append` prints the tree with one more item. */
  lemma AppendPrints(text: string, pre: string, k: Kid, post: string, place: Place, m: CNode, holder: Option<Slot>,
          v: Value, flow: bool)
    requires Site(text, pre, k, post, place, m) && Holds(text, pre, k, place, m, holder) && k.node.Coll?
             && !k.node.isMap
    ensures m.CColl? && Append(text, holder, m, v, flow)
            == Ok(pre + PrintKid(AppendKid(k, InFlowPlace(place), Col(place), v, flow, Newline(text))) + post)
  {
    hide PrintKid, PrintNode, KidIn, NodeOk, FlowNode, BlockNode, ItemKid, Eol, Join, Newline, Column, FindChar,
         ContentEnd, KidHead, KidLead, MarkText, Composed, KeyMark, ItemLines, LineEnd, Upto, From, Spaces,
         PairLines;
    NodeShape(text, pre, k, post, place, m);
    var n, nl := k.node, Newline(text);
    if !n.flow {
      NewItemPrints(v, n.col, nl);
      BlockGrows(text, pre, k, post, place, m, ItemKid(v, n.col, nl, [Br(nl, n.col, "")], ""),
                 nl + Join(ItemLines([v], n.col), nl));
      var at := Eol(text, ContentEnd(text, m));
      assert Upto(text, at) + (nl + Join(ItemLines([v], n.col), nl)) + From(text, at)
          == Upto(text, at) + nl + Join(ItemLines([v], n.col), nl) + From(text, at);
    } else if n.kids != [] {
      FlowItemPrints(v);
      FlowGrows(text, pre, k, post, place, m, FlowItem(false, v), FlowText(v));
    } else if k.mark.Key? && !flow && !InFlowPlace(place) {
      RootUnkeyed(k, place);
      KeyCut(text, pre, k, post, place, m, holder.value);
      BlockPrints(List([v]), Col(place) + 2, nl, k.tail);
      OpenedPrints(text, pre, k, post, place, m, holder.value, BlockNode(List([v]), Col(place) + 2, nl, k.tail),
                   Join(ItemLines([v], Col(place) + 2), nl));
    } else {
      if holder.Some? { KeyBefore(k, |pre|); }
      assert FlowText(List([v])) == "[" + FlowText(v) + "]" by {
        hide FlowText;
        assert FlowItems([v]) == FlowText(v) + "";
        assert FlowText(List([v])) == "[" + FlowItems([v]) + "]";
      }
      FlowFilled(text, pre, k, post, place, m, List([v]));
      assert Upto(text, m.start) + ("[" + FlowText(v) + "]") + From(text, m.end)
          == Upto(text, m.start) + "[" + FlowText(v) + "]" + From(text, m.end);
    }
  }

  lemma RootUnkeyed(k: Kid, place: Place)
    requires KidIn(place, k) && k.mark.Key?
    ensures place.Child?
  {
    hide Leads, PrintNode;
  }

  lemma BareRoot(k: Kid, place: Place)
    requires KidIn(place, k) && k.node.Coll? && !k.node.flow
    ensures k.mark.Bare? <==> place.Root?
  {
    hide Leads, PrintNode, Placed, FlowBlank, Comma, ReadScalar;
  }

  /** The column of a mapping's first key. */
  lemma FirstKeyColumn(text: string, pre: string, k: Kid, post: string, place: Place, m: CNode)
    requires Site(text, pre, k, post, place, m) && k.node.Coll? && !k.node.flow && k.node.isMap
    ensures m.CColl? && m.value != [] && m.value[0].key.Some? && Column(text, m.value[0].key.value.start) == k.node.col
  {
    hide PrintKid, PrintNode, KidIn, NodeOk, KidHead, Composed, LineEnd, Column, PrintKids, KidLead, BlockKidOk;
    NodeShape(text, pre, k, post, place, m);
    var at := |pre + KidHead(k)|;
    BlockFacts(text, k.node, at, m);
    var first := k.node.kids[0];
    FirstKid(first, k.node.col, k.node.isMap);
    assert k.node.kids[..0] == [];
    NoKids();
    KeyBefore(first, at);
    assert KidAt(k.node, at, 0) == at;
  }

  lemma FirstKid(k: Kid, col: nat, isMap: bool)
    requires BlockKidOk(k, col, true, isMap)
    ensures KidLead(k) == "" && (isMap ==> k.mark.Key?) && (!isMap ==> k.mark.Dash?)
  {
    hide Placed, ReadScalar;
  }

  /** `_insert` prints the tree with one more entry. */
  lemma InsertPrints(text: string, pre: string, k: Kid, post: string, place: Place, m: CNode, holder: Option<Slot>,
          key: string, v: Value, flow: bool)
    requires Site(text, pre, k, post, place, m) && Holds(text, pre, k, place, m, holder) && k.node.Coll? && k.node.isMap
    ensures m.CColl? && Insert(text, holder, m, key, v, flow)
            == Ok(pre + PrintKid(InsertKid(k, InFlowPlace(place), Col(place), key, v, flow, Newline(text))) + post)
  {
    hide PrintKid, PrintNode, KidIn, NodeOk, FlowText, FlowNode, BlockNode, EntryKid, Eol, Join, Newline, Column,
         FindChar, ContentEnd, KidHead, KidLead, MarkText, Composed, KeyMark, EntryLines, LineEnd, Upto, From, Spaces,
         Quote;
    NodeShape(text, pre, k, post, place, m);
    var n, nl := k.node, Newline(text);
    var entry := Quote(key) + ": " + FlowText(v);
    if !n.flow {
      FirstKeyColumn(text, pre, k, post, place, m);
      BareRoot(k, place);
      NewEntryPrints(key, v, n.col, flow, nl, k.mark.Bare?);
      var lead := (if k.mark.Bare? then [Br(nl, 0, "")] else []) + [Br(nl, n.col, "")];
      var start := if k.mark.Bare? then nl + nl else nl;
      var lines := Join(EntryLines(key, v, n.col, flow), nl);
      BlockGrows(text, pre, k, post, place, m, EntryKid(key, v, n.col, flow, nl, lead, ""), start + lines);
      var at := Eol(text, ContentEnd(text, m));
      assert Upto(text, at) + (start + lines) + From(text, at) == Upto(text, at) + start + lines + From(text, at);
    } else if n.kids != [] {
      FlowEntryPrints(key, v);
      FlowGrows(text, pre, k, post, place, m, FlowEntry(false, key, v), entry);
    } else if k.mark.Key? && !InFlowPlace(place) {
      RootUnkeyed(k, place);
      KeyCut(text, pre, k, post, place, m, holder.value);
      EntryPrints(key, v, Col(place) + 2, flow, nl, k.tail);
      var kid := EntryKid(key, v, Col(place) + 2, flow, nl, [], k.tail);
      OneKid(kid);
      var node := Coll(false, true, Col(place) + 2, [kid], "");
      BareBlock(node);
      OpenedPrints(text, pre, k, post, place, m, holder.value, node,
                   Join(EntryLines(key, v, Col(place) + 2, flow), nl));
    } else {
      if holder.Some? { KeyBefore(k, |pre|); }
      assert FlowText(Dict([Pair(key, v)])) == "{" + (Quote(key) + ": " + FlowText(v)) + "}" by {
        hide FlowText, Quote;
        assert FlowPairs([Pair(key, v)]) == Quote(key) + ": " + FlowText(v) + "";
        FlowDictText([Pair(key, v)]);
      }
      FlowFilled(text, pre, k, post, place, m, Dict([Pair(key, v)]));
      assert Upto(text, m.start) + ("{" + entry + "}") + From(text, m.end)
          == Upto(text, m.start) + "{" + entry + "}" + From(text, m.end);
    }
  }

  // ---------------------------------------------------------------- walking

  /** A walk from `node`, reached with `holder`, and the edit where it stops. */
  function WalkFinish(text: string, holder: Option<Slot>, node: CNode, path: seq<Part>, value: Value, flow: bool)
    : Result<string, EditError>
    requires path == [] ==> holder.Some?
  {
    match Walk(node, path)
    case Err(e) => Err(e)
    case Ok(Walked(slots, stop)) =>
      Finish(text, if slots == [] then holder else LastSlot(slots), stop, path[|slots|..], value, flow)
  }

  lemma WalkOn(text: string, holder: Option<Slot>, node: CNode, path: seq<Part>, value: Value, flow: bool)
    requires path != []
    ensures WalkFinish(text, holder, node, path, value, flow) ==
            match StepInto(node, path[0])
            case Err(e) => Err(e)
            case Ok(None) => Finish(text, holder, node, path, value, flow)
            case Ok(Some(slot)) => WalkFinish(text, Some(slot), slot.value, path[1..], value, flow)
  {
    hide Finish, StepInto;
    var step := StepInto(node, path[0]);
    if step.Ok? && step.value.Some? {
      var slot := step.value.value;
      var rest := Walk(slot.value, path[1..]);
      if rest.Ok? {
        var slots := [slot] + rest.value.slots;
        assert path[|slots|..] == path[1..][|rest.value.slots|..];
        assert LastSlot(slots) == if rest.value.slots == [] then Some(slot) else LastSlot(rest.value.slots);
      }
    } else if step.Ok? {
      assert path[0..] == path;
    }
  }

  lemma {:induction false} FindKeyMatches(text: string, kids: seq<Kid>, marks: seq<CKid>, part: string, at: seq<nat>)
    requires |kids| == |marks| == |at|
    requires forall i | 0 <= i < |kids| :: marks[i].key == KeyMark(kids[i], at[i])
    ensures FindKey(marks, part) == FindName(kids, part)
  {
    if kids == [] {
    } else {
      var last := |kids| - 1;
      FindKeyMatches(text, kids[..last], marks[..last], part, at[..last]);
      assert KeyMark(kids[last], at[last]).Some? <==> kids[last].mark.Key?;
      assert kids[last].mark.Key? ==> KeyMark(kids[last], at[last]).value.name == kids[last].mark.name;
    }
  }

  lemma CollFacts(text: string, n: Node, at: nat, m: CNode)
    requires n.Coll? && Composed(text, n, at, m)
    ensures m.CColl? && m.flow == n.flow && m.isMap == n.isMap && m.start == at && |m.value| == |n.kids|
    ensures forall i | 0 <= i < |n.kids| ::
              && m.value[i].key == KeyMark(n.kids[i], KidAt(n, at, i))
              && Composed(text, n.kids[i].node, KidAt(n, at, i) + |KidHead(n.kids[i])|, m.value[i].value)
  {
    hide KidHead, KeyMark, PrintNode, PrintKids;
  }

  /** The walk of the marks and the walk of the tree take the same step. */
  lemma SameStep(text: string, n: Node, at: nat, m: CNode, part: Part)
    requires NodeOk(n) && Composed(text, n, at, m)
    ensures StepInto(m, part).Err? <==> StepKid(n, part).Err?
    ensures StepInto(m, part).Err? ==> StepInto(m, part).error == StepKid(n, part).error
    ensures StepInto(m, part).Ok? ==> (StepInto(m, part).value.None? <==> StepKid(n, part).value.None?)
    ensures StepInto(m, part).Ok? && StepInto(m, part).value.Some? ==>
              var i := StepKid(n, part).value.value;
              && m.CColl? && n.Coll? && i < |n.kids| == |m.value|
              && StepInto(m, part).value.value == Slot(m, i, m.value[i].key, m.value[i].value)
  {
    hide Composed, FindKey, FindName, KidHead;
    MarkShape(text, n, at, m);
    if n.Coll? {
      CollFacts(text, n, at, m);
      var ats := seq(|n.kids|, i requires 0 <= i < |n.kids| => KidAt(n, at, i));
      if n.isMap && part.Name? {
        FindKeyMatches(text, n.kids, m.value, part.name, ats);
      } else if !n.isMap && part.Index? && 0 <= part.index < |n.kids| {
        assert KeyMark(n.kids[part.index], KidAt(n, at, part.index)) == None by {
          hide Placed, Leads, ReadScalar, Follows, FlowBlank, Comma, PrintNode;
          assert if n.flow then FlowKidOk(n.kids[part.index], part.index == 0, false)
                 else BlockKidOk(n.kids[part.index], n.col, part.index == 0, false);
        }
      }
    }
  }

  /** A child of a collection is a site of its own. */
  lemma ChildSite(text: string, pre: string, k: Kid, post: string, place: Place, m: CNode, i: nat)
    requires Site(text, pre, k, post, place, m) && k.node.Coll? && i < |k.node.kids|
    ensures m.CColl? && |m.value| == |k.node.kids|
    ensures var n := k.node;
            var pre' := pre + KidHead(k) + Open(n) + PrintKids(n.kids[..i]);
            var post' := PrintKids(n.kids[i + 1..]) + Close(n) + k.tail + post;
            && Site(text, pre', n.kids[i], post', Child(n.flow, n.isMap, i == 0, n.col), m.value[i].value)
            && Holds(text, pre', n.kids[i], Child(n.flow, n.isMap, i == 0, n.col), m.value[i].value,
                     Some(Slot(m, i, m.value[i].key, m.value[i].value)))
  {
    hide PrintKid, PrintNode, KidHead, NodeOk, Composed, PrintKids, LineEnd, Column, FlowKidOk, BlockKidOk, KidLead,
         RootOk, Open, Close, KeyMark;
    var n := k.node;
    var pre' := pre + KidHead(k) + Open(n) + PrintKids(n.kids[..i]);
    var post' := PrintKids(n.kids[i + 1..]) + Close(n) + k.tail + post;
    KidSplit(k);
    BlockSplit(n, i);
    var h := KidHead(k);
    var front := PrintKids(n.kids[..i]);
    var kid := PrintKid(n.kids[i]);
    var after := PrintKids(n.kids[i + 1..]);
    assert pre + (h + (Open(n) + front + kid + (after + Close(n))) + k.tail) + post
           == (pre + h + Open(n) + front) + kid + (after + Close(n) + k.tail + post);
    var at := |pre + KidHead(k)|;
    CollFacts(text, n, at, m);
    assert |pre'| == KidAt(n, at, i);
    assert |pre' + KidHead(n.kids[i])| == KidAt(n, at, i) + |KidHead(n.kids[i])|;
    NodeShape(text, pre, k, post, place, m);
    if n.flow {
      FlowFacts(text, n, at, m);
    } else {
      BlockFacts(text, n, at, m);
      ChildLine(pre, k, post, place, i);
    }
  }

  /** A block child starts its line at the collection's column and ends before a line break. */
  lemma ChildLine(pre: string, k: Kid, post: string, place: Place, i: nat)
    requires KidIn(place, k) && NodeOk(k.node) && k.node.Coll? && !k.node.flow && i < |k.node.kids|
    requires LineEnd(post) && Column(pre + KidLead(k), |pre + KidLead(k)|) == Col(place)
    ensures var n := k.node;
            var pre' := pre + KidHead(k) + Open(n) + PrintKids(n.kids[..i]);
            && LineEnd(PrintKids(n.kids[i + 1..]) + Close(n) + k.tail + post)
            && Column(pre' + KidLead(n.kids[i]), |pre' + KidLead(n.kids[i])|) == n.col
  {
    hide PrintKid, PrintNode, KidHead, PrintKids, LineEnd, Column, FlowKidOk, KidLead, RootOk, Follows, Leads, Placed,
         StartCol, ReadScalar;
    var n := k.node;
    var kid := n.kids[i];
    assert BlockKidOk(kid, n.col, i == 0, n.isMap);
    BlockPlace(k, place);
    if i + 1 < |n.kids| {
      assert BlockKidOk(n.kids[i + 1], n.col, false, n.isMap);
      NextLineEnd(n.kids[i + 1..], n.col, n.isMap, Close(n) + k.tail + post);
      assert PrintKids(n.kids[i + 1..]) + (Close(n) + k.tail + post)
             == PrintKids(n.kids[i + 1..]) + Close(n) + k.tail + post;
    } else {
      NoKids();
      assert n.kids[i + 1..] == [];
      assert "" + "" + "" + post == post;
    }
    var front := pre + KidHead(k) + Open(n) + PrintKids(n.kids[..i]);
    if i == 0 {
      FirstKid(kid, n.col, n.isMap);
      assert n.kids[..0] == [];
      NoKids();
      assert front + "" == pre + KidHead(k);
      StartColumn(pre, k, Col(place));
    } else {
      LaterLead(kid);
      LeadsColumn(front, kid.lead, n.col);
    }
  }

  lemma LaterLead(k: Kid)
    requires k.sep == ""
    ensures KidLead(k) == PrintBrs(k.lead)
  {
  }

  lemma BlockPlace(k: Kid, place: Place)
    requires KidIn(place, k) && k.node.Coll? && !k.node.flow
    ensures k.tail == "" && k.node.col == StartCol(k, Col(place))
    ensures if k.drop == [] then AllSpaces(k.gap) && OneLine(MarkText(k.mark))
            else Leads(k.drop, StartCol(k, Col(place)))
  {
    hide Leads, PrintNode, FlowBlank, Comma, ReadScalar;
  }

  lemma NextLineEnd(kids: seq<Kid>, col: nat, isMap: bool, rest: string)
    requires kids != [] && BlockKidOk(kids[0], col, false, isMap)
    ensures LineEnd(PrintKids(kids) + rest)
  {
    hide PrintKid, PrintNode, LineEnd, Placed, PrintBrs, ReadScalar;
    var k := kids[0];
    assert k.lead[0] in k.lead;
    BlockKidPrints(k);
    var body := MarkText(k.mark) + (k.gap + (PrintBrs(k.drop) + (PrintNode(k.node) + k.tail)));
    BreakFirst(k.lead, body + (PrintKids(kids[1..]) + rest));
    assert PrintKids(kids) + rest == PrintBrs(k.lead) + (body + (PrintKids(kids[1..]) + rest));
  }

  /** The edit where the walk stops prints the tree edited there. */
  lemma FinishPrints(text: string, pre: string, k: Kid, post: string, place: Place, m: CNode, holder: Option<Slot>,
          rest: seq<Part>, value: Value, flow: bool)
    requires Site(text, pre, k, post, place, m) && Holds(text, pre, k, place, m, holder) && rest != []
    requires place.Root? ==> k.node.Coll?
    ensures Finish(text, holder, m, rest, value, flow) ==
            match FinishKid(k, InFlowPlace(place), Col(place), rest, value, flow, Newline(text))
            case Err(e) => Err(e)
            case Ok(e) => Ok(pre + PrintKid(e) + post)
  {
    hide PrintKid, PrintNode, KidIn, NodeOk, KidHead, KidLead, Composed, Newline, LineEnd, Column, Nested, Append,
         Insert, Replace, AppendKid, InsertKid, ReplaceKid, KeyMark;
    NodeShape(text, pre, k, post, place, m);
    if k.node.Coll? {
      var inner := Nested(rest[1..], value);
      if inner.Ok? {
        if k.node.isMap {
          if rest[0].Name? {
            InsertPrints(text, pre, k, post, place, m, holder, rest[0].name, inner.value, flow);
          }
        } else {
          AppendPrints(text, pre, k, post, place, m, holder, inner.value, flow);
        }
      }
    } else if k.node.Scalar? && k.node.val.Null? {
      var inner := Nested(rest, value);
      if inner.Ok? {
        ReplacePrints(text, pre, k, post, place, m, holder.value, inner.value, flow);
      }
    }
  }

  /**
   Setting a value below a child: the walk over the marks ends in an error exactly when
   the walk over the tree does, and otherwise the splice prints the edited child.
   */
  lemma {:induction false} SetPrints(text: string, pre: string, k: Kid, post: string, place: Place, m: CNode,
          holder: Option<Slot>, path: seq<Part>, value: Value, flow: bool)
    requires Site(text, pre, k, post, place, m) && Holds(text, pre, k, place, m, holder)
    requires place.Root? ==> path != [] && k.node.Coll?
    ensures path == [] ==> holder.Some?
    ensures WalkFinish(text, holder, m, path, value, flow) ==
            match EditKid(k, InFlowPlace(place), Col(place), path, value, flow, Newline(text))
            case Err(e) => Err(e)
            case Ok(e) => Ok(pre + PrintKid(e) + post)
    decreases |path|
  {
    hide PrintKid, PrintNode, KidIn, NodeOk, KidHead, KidLead, Composed, Newline, LineEnd, Column, Finish, FinishKid,
         ReplaceKid, Replace, StepKid, StepInto, WalkFinish, PrintKids, KeyMark, Open, Close, Site;
    if path == [] {
      assert holder.Some? && holder.value.value == m;
      ReplacePrints(text, pre, k, post, place, m, holder.value, value, flow);
      EmptyWalk(text, holder, m, value, flow);
    } else {
      WalkOn(text, holder, m, path, value, flow);
      SiteNode(text, pre, k, post, place, m);
      SameStep(text, k.node, |pre + KidHead(k)|, m, path[0]);
      var step := StepKid(k.node, path[0]);
      if step == Ok(None) {
        FinishPrints(text, pre, k, post, place, m, holder, path, value, flow);
      } else if step.Ok? {
        var n, i := k.node, step.value.value;
        var pre' := pre + KidHead(k) + Open(n) + PrintKids(n.kids[..i]);
        var post' := PrintKids(n.kids[i + 1..]) + Close(n) + k.tail + post;
        var slot := Slot(m, i, m.value[i].key, m.value[i].value);
        var place' := Child(n.flow, n.isMap, i == 0, n.col);
        ChildSite(text, pre, k, post, place, m, i);
        SetPrints(text, pre', n.kids[i], post', place', m.value[i].value, Some(slot), path[1..], value, flow);
        var e := EditKid(n.kids[i], n.flow, n.col, path[1..], value, flow, Newline(text));
        if e.Ok? {
          ChildEdited(pre, k, post, i, e.value);
        }
      }
    }
  }

  lemma SiteNode(text: string, pre: string, k: Kid, post: string, place: Place, m: CNode)
    requires Site(text, pre, k, post, place, m)
    ensures NodeOk(k.node) && Composed(text, k.node, |pre + KidHead(k)|, m)
  {
  }

  lemma EmptyWalk(text: string, holder: Option<Slot>, m: CNode, value: Value, flow: bool)
    requires holder.Some? && holder.value.value == m
    ensures WalkFinish(text, holder, m, [], value, flow) == Replace(text, holder.value, value, flow)
  {
    hide Replace;
    var none: seq<Part> := [];
    assert none[0..] == none;
  }

  /** The text with one child edited is the text around it and the edited child. */
  lemma ChildEdited(pre: string, k: Kid, post: string, i: nat, e: Kid)
    requires k.node.Coll? && i < |k.node.kids|
    ensures var n := k.node;
            pre + PrintKid(k.(node := n.(kids := n.kids[i := e]))) + post
            == (pre + KidHead(k) + Open(n) + PrintKids(n.kids[..i])) + PrintKid(e)
               + (PrintKids(n.kids[i + 1..]) + Close(n) + k.tail + post)
  {
    hide PrintKid, PrintNode, KidHead, PrintKids, Open, Close;
    var n := k.node;
    var g := n.(kids := n.kids[i := e]);
    BlockSplit(g, i);
    assert g.kids[..i] == n.kids[..i] && g.kids[i + 1..] == n.kids[i + 1..];
    SameBrackets(n, g.kids);
    NewNode(pre, k, post, g, k.tail);
    assert k.(node := g, tail := k.tail) == k.(node := g);
    var h := KidHead(k);
    var front := PrintKids(n.kids[..i]);
    var kid := PrintKid(e);
    var after := PrintKids(n.kids[i + 1..]);
    assert pre + h + (Open(n) + front + kid + (after + Close(n))) + k.tail + post
           == (pre + h + Open(n) + front) + kid + (after + Close(n) + k.tail + post);
  }

  lemma SameBrackets(n: Node, kids: seq<Kid>)
    requires n.Coll?
    ensures Open(n.(kids := kids)) == Open(n) && Close(n.(kids := kids)) == Close(n)
  {
  }

  lemma DocSite(d: Doc, m: CNode)
    requires DocOk(d) && Composed(PrintDoc(d), d.root.node, |KidHead(d.root)|, m)
    ensures Site(PrintDoc(d), "", d.root, PrintBrs(d.end), Root, m)
  {
    hide PrintKid, NodeOk, KidHead, Composed, PrintBrs, LineEnd;
    assert "" + PrintKid(d.root) + PrintBrs(d.end) == PrintDoc(d);
    assert "" + KidHead(d.root) == KidHead(d.root);
    assert "" + KidLead(d.root) == "" by { EmptyBrs(); }
    if d.end == [] {
      EmptyBrs();
    } else {
      assert d.end[0] in d.end;
      BreakFirst(d.end, "");
      assert PrintBrs(d.end) + "" == PrintBrs(d.end);
    }
    assert LineEnd(PrintBrs(d.end)) by { if d.end == [] { EmptyIsEnd(); } }
  }

  lemma EmptyIsEnd()
    ensures LineEnd("")
  {
  }

  /**
   `set_value` on a document's text, with whatever marks the composer reports, is the
   printing of the edited document; it refuses exactly when the edit does, for the same reason.
   */
  lemma SetValueSplices(d: Doc, m: CNode, path: seq<Part>, value: Value, flow: bool)
    requires DocOk(d) && Composed(PrintDoc(d), d.root.node, |KidHead(d.root)|, m)
    ensures SetValue(PrintDoc(d), Some(m), path, value, flow) ==
            match EditDoc(d, path, value, flow)
            case Err(e) => Err(e)
            case Ok(e) => Ok(PrintDoc(e))
  {
    hide NodeOk, KidHead, Composed, PrintKid, EditKid, PrintBrs, Walk, Finish, Newline, HasUnicodeBreak, PrintNode,
         Site, DocOk;
    var text := PrintDoc(d);
    DocSite(d, m);
    MarkShape(text, d.root.node, |KidHead(d.root)|, m);
    if path != [] && d.root.node.Coll? {
      SetPrints(text, "", d.root, PrintBrs(d.end), Root, m, None, path, value, flow);
      var e := EditKid(d.root, false, 0, path, value, flow, Newline(text));
      if e.Ok? {
        assert "" + PrintKid(e.value) + PrintBrs(d.end) == PrintKid(e.value) + PrintBrs(d.end);
      }
    }
  }
}
