/**
 The removal where a path ends, and how each collection on the way up takes in the
 lines the removal moved: `remove_value` on a whole document.
 */
module YamlRemoveWalk {
  import opened Text
  import opened YamlValue
  import opened YamlEmit
  import opened YamlBlock
  import opened YamlTree
  import opened YamlBuild
  import opened YamlEdit
  import opened YamlMarks
  import opened YamlSplice
  import opened YamlSplicePrints
  import opened YamlSetPrints
  import opened YamlRemove
  import opened YamlRemovePrints

  /** The text a removal leaves: moved lines above the child, the cut lead below it. */
  function RemovedText(pre: string, r: Removed, post: string): string {
    AboveText(pre + KidLead(r.kid), r.above) + KidRest(r.kid) + BelowText(r.below, post)
  }

  function RemovedResult(pre: string, r: Result<Removed, EditError>, post: string): Result<string, EditError> {
    match r
    case Err(e) => Err(e)
    case Ok(r) => Ok(RemovedText(pre, r, post))
  }

  /** A removal keeps its child's start; it moves lines only out of block collections. */
  predicate Shaped(r: Removed, k: Kid, place: Place) {
    && SameStart(k, r.kid)
    && (r.above == [] || (|r.above| >= 2 && place.Child? && !place.flow))
    && (r.below.Some? ==> r.below.value != [] && !InFlowPlace(place))
  }

  lemma StillText(pre: string, k: Kid, post: string)
    ensures RemovedText(pre, Removed(k, [], None), post) == pre + PrintKid(k) + post
  {
    hide KidLead, KidRest, PrintKid, AboveText;
    RestPrints(k);
    NothingAbove(pre + KidLead(k));
    assert (pre + KidLead(k)) + KidRest(k) + post == pre + (KidLead(k) + KidRest(k)) + post;
  }

  lemma BelowOnly(pre: string, k: Kid, lead: seq<Br>, post: string)
    requires lead != []
    ensures RemovedText(pre, Removed(k, [], Some(lead)), post) == pre + PrintKid(k) + CutText(lead, post)
  {
    hide KidLead, KidRest, PrintKid, CutText, AboveText;
    RestPrints(k);
    NothingAbove(pre + KidLead(k));
    assert (pre + KidLead(k)) + KidRest(k) + CutText(lead, post)
           == pre + (KidLead(k) + KidRest(k)) + CutText(lead, post);
  }

  /** `remove_value`'s last step prints the child without the one the path names. */
  lemma RemoveAtPrints(text: string, pre: string, k: Kid, post: string, place: Place, m: CNode, holder: Option<Slot>,
          i: nat)
    requires Site(text, pre, k, post, place, m) && Holds(text, pre, k, place, m, holder)
    requires k.node.Coll? && i < |k.node.kids|
    ensures m.CColl? && i < |m.value|
    ensures var r := RemoveAt(k, place.Root?, InFlowPlace(place), Col(place), i, Newline(text));
            && RemoveSlot(text, holder, SlotAt(m, i)) == RemovedResult(pre, r, post)
            && (r.Ok? ==> Shaped(r.value, k, place))
  {
    hide PrintKid, PrintNode, KidHead, NodeOk, Composed, PrintKids, Column, KidLead, KidRest, KidIn, LineEnd,
         PrintBrs, Leads, CutText, RemoveSlot, RemovedText, Newline, ReplaceKid, Site, Holds;
    KidMarks(text, pre, k, post, place, m, i);
    var n, kids, nl := k.node, k.node.kids, Newline(text);
    var root, inFlow, col := place.Root?, InFlowPlace(place), Col(place);
    if |kids| == 1 {
      OnlyChild(text, pre, k, post, place, m, holder);
    } else if n.flow {
      FlowChild(text, pre, k, post, place, m, holder, i);
    } else {
      SiteFacts(text, pre, k, post, place, m);
      LeadsLater(n);
      if !n.isMap && (kids[i].drop != [] || (i == 0 && k.drop == [] && !root)) {
        ItemRefused(text, pre, k, post, place, m, holder, i);
        assert RemoveAt(k, root, inFlow, col, i, nl) == Err(SharedLine) by { hide Merge, WithKids; }
      } else if i > 0 {
        LaterChild(text, pre, k, post, place, m, holder, i);
      } else {
        FirstChild(text, pre, k, post, place, m, holder);
      }
    }
  }

  lemma SiteFacts(text: string, pre: string, k: Kid, post: string, place: Place, m: CNode)
    requires Site(text, pre, k, post, place, m)
    ensures text == pre + PrintKid(k) + post && NodeOk(k.node) && KidIn(place, k) && (place.Root? ==> pre == "")
    ensures !InFlowPlace(place) ==> LineEnd(post)
  {
    hide PrintKid, NodeOk, KidIn, Composed, KidHead, LineEnd, Column, KidLead;
  }

  lemma OnlyChild(text: string, pre: string, k: Kid, post: string, place: Place, m: CNode, holder: Option<Slot>)
    requires Site(text, pre, k, post, place, m) && Holds(text, pre, k, place, m, holder)
    requires k.node.Coll? && |k.node.kids| == 1
    ensures m.CColl? && |m.value| == 1
    ensures var r := RemoveAt(k, place.Root?, InFlowPlace(place), Col(place), 0, Newline(text));
            && RemoveSlot(text, holder, SlotAt(m, 0)) == RemovedResult(pre, r, post)
            && (r.Ok? ==> Shaped(r.value, k, place))
  {
    hide PrintKid, NodeOk, Composed, KidLead, KidRest, KidIn, Newline, ReplaceKid, Site, Replace, RemovedText, KeyMark,
         Column, Merge, WithKids;
    KidMarks(text, pre, k, post, place, m, 0);
    var empty := if k.node.isMap then Dict([]) else List([]);
    if place.Child? {
      ReplacePrints(text, pre, k, post, place, m, holder.value, empty, true);
      var e := ReplaceKid(k, InFlowPlace(place), Col(place), empty, true, Newline(text));
      StillText(pre, e, post);
      ReplaceStart(k, InFlowPlace(place), Col(place), empty, true, Newline(text));
    }
  }

  lemma FlowChild(text: string, pre: string, k: Kid, post: string, place: Place, m: CNode, holder: Option<Slot>, i: nat)
    requires Site(text, pre, k, post, place, m) && k.node.Coll? && k.node.flow && i < |k.node.kids|
             && |k.node.kids| >= 2
    ensures m.CColl? && i < |m.value|
    ensures var r := RemoveAt(k, place.Root?, InFlowPlace(place), Col(place), i, Newline(text));
            r.Ok? && RemoveSlot(text, holder, SlotAt(m, i)) == RemovedResult(pre, r, post) && Shaped(r.value, k, place)
  {
    hide PrintKid, NodeOk, Composed, KidLead, KidRest, KidIn, Newline, ReplaceKid, Site, RemovedText, Merge,
         ContentEnd, KidStart, Upto, From, KidHead;
    KidMarks(text, pre, k, post, place, m, i);
    var kids := k.node.kids;
    if i < |kids| - 1 {
      FlowMidPrints(text, pre, k, post, place, m, i);
      StillText(pre, WithKids(k, kids[..i] + [kids[i + 1].(sep := kids[i].sep)] + kids[i + 2..]), post);
    } else {
      FlowLastPrints(text, pre, k, post, place, m);
      StillText(pre, WithKids(k, kids[..i]), post);
    }
  }

  lemma LaterChild(text: string, pre: string, k: Kid, post: string, place: Place, m: CNode, holder: Option<Slot>,
          i: nat)
    requires Site(text, pre, k, post, place, m) && k.node.Coll? && !k.node.flow && 0 < i < |k.node.kids|
    requires !k.node.isMap ==> k.node.kids[i].drop == []
    ensures m.CColl? && i < |m.value|
    ensures var r := RemoveAt(k, place.Root?, InFlowPlace(place), Col(place), i, Newline(text));
            r.Ok? && RemoveSlot(text, holder, SlotAt(m, i)) == RemovedResult(pre, r, post) && Shaped(r.value, k, place)
  {
    hide PrintKid, NodeOk, Composed, KidLead, KidRest, KidIn, Newline, ReplaceKid, Site, RemovedText, Merge, CutText,
         RemoveSlot;
    SiteFacts(text, pre, k, post, place, m);
    BlockTail(k, place);
    LaterPrints(text, pre, k, post, place, m, holder, i);
    var kids := k.node.kids;
    if i < |kids| - 1 {
      StillText(pre, WithKids(k,
                kids[..i] + [kids[i + 1].(lead := Merge(kids[i].lead, kids[i + 1].lead))] + kids[i + 2..]), post);
    } else {
      BelowOnly(pre, WithKids(k, kids[..i]), kids[i].lead, post);
    }
  }

  lemma FirstChild(text: string, pre: string, k: Kid, post: string, place: Place, m: CNode, holder: Option<Slot>)
    requires Site(text, pre, k, post, place, m) && k.node.Coll? && !k.node.flow && |k.node.kids| >= 2
    requires !k.node.isMap ==> k.node.kids[0].drop == [] && (k.drop != [] || place.Root?)
    ensures m.CColl? && 0 < |m.value|
    ensures var r := RemoveAt(k, place.Root?, InFlowPlace(place), Col(place), 0, Newline(text));
            r.Ok? && RemoveSlot(text, holder, SlotAt(m, 0)) == RemovedResult(pre, r, post) && Shaped(r.value, k, place)
  {
    hide PrintKid, NodeOk, Composed, KidIn, Newline, ReplaceKid, Site, Merge, CutText, RemoveSlot, Join;
    SiteFacts(text, pre, k, post, place, m);
    BlockTail(k, place);
    var next := k.node.kids[1];
    if k.drop != [] {
      FirstPrints(text, pre, k, post, place, m, holder);
      StillText(pre, FirstGone(k).(drop := Merge(k.drop, next.lead)), post);
    } else if place.Root? {
      HeadPrints(text, pre, k, post, m, holder);
      StillText(pre, HeadCut(FirstGone(k), next.lead), post);
    } else {
      CompactPrints(text, pre, k, post, place, m, holder);
      var above := if |next.lead| <= 1 then [] else next.lead;
      assert RemovedText(pre, Removed(FirstGone(k), above, None), post)
             == AboveText(pre + KidLead(k), above) + KidRest(FirstGone(k)) + post by {
        hide KidRest, AboveText, PrintBrs, FirstGone;
        FirstGoneShape(k);
      }
    }
  }

  // ------------------------------------------------------------------ lifting

  /** The head of the child's text, seen from the child that holds its collection. */
  lemma LiftHead(pre: string, k: Kid, place: Place, i: nat, r: Removed)
    requires KidIn(place, k) && NodeOk(k.node) && k.node.Coll? && i < |k.node.kids| && (place.Root? ==> pre == "")
    requires Shaped(r, k.node.kids[i], Child(k.node.flow, k.node.isMap, i == 0, k.node.col))
    ensures var n, l := k.node, Lift(k, place.Root?, i, r);
            l.kid.node.Coll? && |l.kid.node.kids| == |n.kids| &&
            AboveText((pre + KidHead(k) + Open(n) + PrintKids(n.kids[..i])) + KidLead(r.kid), r.above)
            == AboveText(pre + KidLead(k), l.above) + (MarkText(k.mark) + l.kid.gap + PrintBrs(l.kid.drop) + Open(n))
               + PrintKids(n.kids[..i]) + KidLead(l.kid.node.kids[i])
  {
    hide PrintKid, PrintNode, KidHead, NodeOk, PrintKids, KidLead, KidIn, PrintBrs, Leads, AboveText, Merge, Above,
         HeadAbove, Open, MarkText, BlockKidOk, Lift;
    var n := k.node;
    var kid := r.kid;
    HeadSplit(k);
    var front := PrintKids(n.kids[..i]);
    LiftParts(k, place.Root?, i, r);
    if r.above == [] {
      NothingAbove((pre + KidHead(k) + Open(n) + front) + KidLead(kid));
      NothingAbove(pre + KidLead(k));
      HeadPlain(pre, KidLead(k), MarkText(k.mark), k.gap, PrintBrs(k.drop), Open(n), front, KidLead(kid));
    } else {
      BlockTail(k, place);
      NodeKid(n, i);
      if i > 0 {
        LaterUp(pre, k, place, i, r);
      } else {
        FirstKid(n.kids[0], n.col, n.isMap);
        SameLead(n.kids[0], kid);
        assert n.kids[..0] == [];
        NoKids();
        FirstUp(pre, k, place, r);
      }
    }
  }

  lemma SameLead(a: Kid, b: Kid)
    requires SameStart(a, b)
    ensures KidLead(a) == KidLead(b)
  {
  }

  lemma NodeKid(n: Node, i: nat)
    requires n.Coll? && !n.flow && NodeOk(n) && i < |n.kids|
    ensures BlockKidOk(n.kids[i], n.col, i == 0, n.isMap)
  {
    hide BlockKidOk, Follows;
  }

  /** What lifting makes of each part of the child. */
  lemma LiftParts(k: Kid, root: bool, i: nat, r: Removed)
    requires k.node.Coll? && i < |k.node.kids| && (r.above == [] || |r.above| >= 2)
    ensures var l := Lift(k, root, i, r);
            && SameStart(k, l.kid) && l.kid.tail == k.tail && l.kid.node.Coll?
            && l.kid.node == k.node.(kids := l.kid.node.kids) && |l.kid.node.kids| == |k.node.kids|
            && l.kid.node.kids[..i] == k.node.kids[..i]
            && l.kid.node.kids[i]
               == (if r.above != [] && i > 0 && r.kid.lead != [] then r.kid.(lead := Above(r.kid.lead, r.above))
               else r.kid)
            && l.below == (if i + 1 == |k.node.kids| then r.below else None)
            && (if r.above == [] || i > 0 then l.above == [] && l.kid.gap == k.gap && l.kid.drop == k.drop
                else if k.drop != [] then l.above == [] && l.kid.gap == k.gap && l.kid.drop == Above(k.drop, r.above)
                else if root then l.above == [] && l.kid.gap == HeadAbove(k, r.above).gap
                     && l.kid.drop == HeadAbove(k, r.above).drop
                else l.above == r.above && l.kid.gap == k.gap && l.kid.drop == k.drop)
  {
    hide Above, Merge;
  }

  lemma HeadPlain(pre: string, lead: string, mark: string, gap: string, drop: string, open: string, front: string,
          kl: string)
    ensures (pre + (lead + mark + gap + drop) + open + front) + kl
            == (pre + lead) + (mark + gap + drop + open) + front + kl
  {
  }

  lemma LaterUp(pre: string, k: Kid, place: Place, i: nat, r: Removed)
    requires k.node.Coll? && 0 < i < |k.node.kids| && |r.above| >= 2
    requires BlockKidOk(k.node.kids[i], k.node.col, false, k.node.isMap) && SameStart(k.node.kids[i], r.kid)
    ensures r.kid.lead != []
    ensures var front := PrintKids(k.node.kids[..i]);
            AboveText((pre + KidHead(k) + Open(k.node) + front) + KidLead(r.kid), r.above)
            == AboveText(pre + KidLead(k), []) + (MarkText(k.mark) + k.gap + PrintBrs(k.drop) + Open(k.node))
               + front + KidLead(r.kid.(lead := Above(r.kid.lead, r.above)))
  {
    hide PrintKid, PrintNode, KidHead, PrintKids, KidLead, PrintBrs, Leads, AboveText, Above, Open, MarkText,
         BlockKidOk;
    NextLead(k.node.kids[i], k.node.col, k.node.isMap);
    var kid := r.kid;
    var up := kid.(lead := Above(kid.lead, r.above));
    LaterLead(kid);
    LaterLead(up);
    HeadSplit(k);
    var front := PrintKids(k.node.kids[..i]);
    AboveLead(pre + KidHead(k) + Open(k.node) + front, kid.lead, k.node.col, r.above);
    NothingAbove(pre + KidLead(k));
    HeadPlain(pre, KidLead(k), MarkText(k.mark), k.gap, PrintBrs(k.drop), Open(k.node), front, PrintBrs(up.lead));
  }

  lemma FirstUp(pre: string, k: Kid, place: Place, r: Removed)
    requires KidIn(place, k) && k.node.Coll? && !k.node.flow && |r.above| >= 2 && (place.Root? ==> pre == "")
    requires Open(k.node) == ""
    ensures var l := if k.drop != [] then k.(drop := Above(k.drop, r.above))
            else if place.Root? then HeadAbove(k, r.above) else k;
            AboveText((pre + KidHead(k) + Open(k.node) + "") + "", r.above)
            == AboveText(pre + KidLead(k), if k.drop == [] && place.Child? then r.above else [])
               + (MarkText(k.mark) + l.gap + PrintBrs(l.drop) + Open(k.node)) + "" + ""
  {
    hide PrintKid, PrintNode, KidHead, KidLead, KidIn, PrintBrs, Leads, AboveText, Merge, Above, Open, MarkText,
         StartCol, HeadAbove, OneLine;
    HeadSplit(k);
    var up := r.above;
    assert (pre + KidHead(k) + Open(k.node) + "") + "" == pre + KidHead(k);
    if k.drop != [] {
      BlockPlace(k, place);
      var a := pre + KidLead(k) + MarkText(k.mark) + k.gap;
      assert pre + KidHead(k) == a + PrintBrs(k.drop);
      AboveLead(a, k.drop, StartCol(k, Col(place)), up);
      NothingAbove(pre + KidLead(k));
      FirstUpGlue(pre + KidLead(k), MarkText(k.mark), k.gap, PrintBrs(Above(k.drop, up)));
    } else if place.Root? {
      HeadUp(k, up);
      RootHeadUp(k);
      NothingAbove(pre + KidLead(k));
      var l := HeadAbove(k, up);
      assert pre + KidLead(k) == "";
      assert "" + ("" + l.gap + PrintBrs(l.drop) + "") + "" + "" == l.gap + PrintBrs(l.drop);
    } else {
      DashPlace(k, place);
      EmptyBrs();
      var s := "-" + k.gap;
      assert pre + KidHead(k)
             == (pre + KidLead(k)) + s by { DashMark(k); assert KidLead(k) + "-" + k.gap + "" == KidLead(k) + s; }
      AboveLater(pre + KidLead(k), s, up);
      DashMark(k);
      assert ("-" + k.gap + "" + "") == s;
      assert AboveText(pre + KidLead(k), up) + s == AboveText(pre + KidLead(k), up) + s + "" + "";
    }
  }

  lemma DashMark(k: Kid)
    requires k.mark.Dash?
    ensures MarkText(k.mark) == "-"
  {
  }

  lemma FirstUpGlue(a: string, mark: string, gap: string, drop: string)
    ensures (a + mark + gap) + drop == a + (mark + gap + drop + "") + "" + ""
  {
  }

  lemma RootHeadUp(k: Kid)
    requires KidIn(Root, k) && k.drop == []
    ensures KidHead(k) == k.gap && AllSpaces(k.gap) && KidLead(k) == "" && MarkText(k.mark) == ""
  {
    hide PrintNode, Leads;
    RootHead(k);
    EmptyBrs();
    assert KidHead(k) == "" + "" + k.gap + "";
  }

  /** Lines above the document's first line. */
  lemma HeadUp(k: Kid, up: seq<Br>)
    requires KidIn(Root, k) && k.drop == [] && |up| >= 2
    ensures var l := HeadAbove(k, up); AboveText("" + KidHead(k), up) == l.gap + PrintBrs(l.drop)
  {
    hide PrintKid, PrintNode, KidHead, KidLead, KidIn, PrintBrs, Spaces;
    RootHeadUp(k);
    var l := HeadAbove(k, up);
    var mid, last := up[1..|up| - 1], up[|up| - 1];
    assert "" + k.gap == k.gap;
    assert LineStart(k.gap, |k.gap|) == 0 && Upto(k.gap, 0) == "" && From(k.gap, 0) == k.gap;
    CutAt(k.gap, 0);
    MovedAbove(k.gap, up);
    PrintBrsConcat(mid, [Br(last.nl, |k.gap|, "")]);
    OneBr(last.nl, |k.gap|);
    assert k.gap == Spaces(|k.gap|) by { GapSpaces(k.gap); }
    HeadUpGlue(Spaces(up[0].pad), up[0].note, PrintBrs(mid), last.nl, k.gap);
  }

  lemma GapSpaces(gap: string)
    requires AllSpaces(gap)
    ensures gap == Spaces(|gap|)
  {
  }

  lemma HeadUpGlue(pad: string, note: string, mid: string, nl: string, gap: string)
    ensures "" + (pad + note + mid + nl) + gap == (pad + note) + (mid + (nl + gap))
  {
  }

  /** The text after the child, seen from the child that holds its collection. */
  lemma LiftTail(k: Kid, place: Place, i: nat, r: Removed, post: string)
    requires KidIn(place, k) && NodeOk(k.node) && k.node.Coll? && i < |k.node.kids|
    requires !InFlowPlace(place) ==> LineEnd(post)
    requires Shaped(r, k.node.kids[i], Child(k.node.flow, k.node.isMap, i == 0, k.node.col))
    ensures var n, l := k.node, Lift(k, place.Root?, i, r);
            l.kid.node.Coll? && |l.kid.node.kids| == |n.kids| &&
            BelowText(r.below, PrintKids(n.kids[i + 1..]) + Close(n) + k.tail + post)
            == PrintKids(l.kid.node.kids[i + 1..]) + (Close(n) + k.tail + BelowText(l.below, post))
  {
    hide PrintKid, PrintNode, KidHead, NodeOk, PrintKids, KidLead, KidRest, KidIn, PrintBrs, Leads, Merge, Above,
         HeadAbove, Open, Close, MarkText, BlockKidOk, LineEnd, CutText, Lift;
    var n := k.node;
    LiftParts(k, place.Root?, i, r);
    LiftAfter(k, place.Root?, i, r);
    var kids' := Lift(k, place.Root?, i, r).kid.node.kids;
    TailGlue(PrintKids(n.kids[i + 1..]), Close(n), k.tail, post);
    if r.below.Some? {
      BlockTail(k, place);
      NodeKid(n, i);
      RestIsEnd(n, i, post);
      assert PrintKids(n.kids[i + 1..]) + Close(n) + k.tail + post == PrintKids(n.kids[i + 1..]) + post;
      if i + 1 < |n.kids| {
        var next := n.kids[i + 1];
        var follow := next.(lead := Merge(r.below.value, next.lead));
        CutMerge(r.below.value, next.lead, KidRest(next) + (PrintKids(n.kids[i + 2..]) + post));
        KidsCons(follow, n.kids[i + 2..]);
        RestPrints(follow);
        LaterLead(follow);
        SameRest(next, follow);
        RestGlue(PrintBrs(follow.lead), KidRest(next), PrintKids(n.kids[i + 2..]), post);
        assert "" + "" + post == post;
      } else {
        assert n.kids[i + 1..] == [] && kids'[i + 1..] == [];
        NoKids();
        assert "" + post == post;
        var s := CutText(r.below.value, post);
        assert s == "" + ("" + "" + s);
      }
    }
  }

  lemma TailGlue(after: string, close: string, tail: string, post: string)
    ensures after + close + tail + post == after + (close + tail + post)
    ensures close == "" && tail == "" ==> after + close + tail + post == after + post
  {
  }

  lemma LiftAfter(k: Kid, root: bool, i: nat, r: Removed)
    requires k.node.Coll? && i < |k.node.kids|
    ensures var n, l := k.node, Lift(k, root, i, r).kid.node;
            && l.Coll? && |l.kids| == |n.kids|
            && l.kids[i + 1..] == if r.below.Some? && r.below.value != [] && i + 1 < |n.kids|
                                  then [n.kids[i + 1].(lead := Merge(r.below.value, n.kids[i + 1].lead))]
                                       + n.kids[i + 2..]
                                  else n.kids[i + 1..]
  {
    hide Above, Merge;
  }

  /** A removal below a child is a removal in the child. */
  lemma LiftPrints(pre: string, k: Kid, post: string, place: Place, i: nat, r: Removed)
    requires KidIn(place, k) && NodeOk(k.node) && k.node.Coll? && i < |k.node.kids|
    requires (place.Root? ==> pre == "") && (!InFlowPlace(place) ==> LineEnd(post))
    requires Shaped(r, k.node.kids[i], Child(k.node.flow, k.node.isMap, i == 0, k.node.col))
    ensures var n, l := k.node, Lift(k, place.Root?, i, r);
            && Shaped(l, k, place)
            && RemovedText(pre + KidHead(k) + Open(n) + PrintKids(n.kids[..i]), r,
               PrintKids(n.kids[i + 1..]) + Close(n) + k.tail + post)
               == RemovedText(pre, l, post)
  {
    hide PrintKid, KidHead, NodeOk, KidLead, KidRest, KidIn, PrintBrs, Leads, Merge, Above, HeadAbove, MarkText,
         BlockKidOk, LineEnd, CutText, Lift, AboveText, BelowText;
    var n, l := k.node, Lift(k, place.Root?, i, r);
    LiftParts(k, place.Root?, i, r);
    LiftHead(pre, k, place, i, r);
    LiftTail(k, place, i, r, post);
    if r.above != [] || r.below.Some? { BlockTail(k, place); }
    var kids' := l.kid.node.kids;
    SameRest(r.kid, kids'[i]);
    RestPrints(kids'[i]);
    PrintKidsAt(kids', i);
    SameBrackets(n, kids');
    RestOf(l.kid);
    assert PrintNode(l.kid.node) == Open(l.kid.node) + PrintKids(l.kid.node.kids) + Close(l.kid.node) by {
      hide PrintKids;
    }
    SameLead(k, l.kid);
    LiftGlue(AboveText(pre + KidLead(k), l.above), MarkText(k.mark) + l.kid.gap + PrintBrs(l.kid.drop), Open(n),
             PrintKids(n.kids[..i]),
             KidLead(kids'[i]), KidRest(r.kid), PrintKids(kids'[i + 1..]), Close(n), k.tail, BelowText(l.below, post));
  }

  lemma LiftGlue(h: string, head: string, open: string, front: string, kl: string, kr: string, after: string,
          close: string, tail: string, post: string)
    ensures (h + (head + open) + front + kl) + kr + (after + (close + tail + post))
            == h + (head + (open + (front + (kl + kr) + after) + close) + tail) + post
  {
  }

  // ------------------------------------------------------------------ walking

  /** A walk from `node`, reached with `holder`, and the removal where it ends. */
  function WalkRemove(text: string, holder: Option<Slot>, node: CNode, path: seq<Part>): Result<string, EditError>
    requires path != []
  {
    match Walk(node, path)
    case Err(e) => Err(e)
    case Ok(Walked(slots, _)) =>
      if |slots| < |path| then Ok(text)
      else RemoveSlot(text, if |slots| == 1 then holder else Some(slots[|slots| - 2]), slots[|slots| - 1])
  }

  lemma RemoveOn(text: string, holder: Option<Slot>, node: CNode, path: seq<Part>)
    requires path != []
    requires var s := StepInto(node, path[0]);
             s.Ok? && s.value.Some? ==>
             s.value.value.parent.CColl? && s.value.value.index < |s.value.value.parent.value|
    ensures WalkRemove(text, holder, node, path) ==
            match StepInto(node, path[0])
            case Err(e) => Err(e)
            case Ok(None) => Ok(text)
            case Ok(Some(slot)) =>
              if |path| == 1 then RemoveSlot(text, holder, slot)
              else WalkRemove(text, Some(slot), slot.value, path[1..])
  {
    hide RemoveSlot, StepInto;
    var step := StepInto(node, path[0]);
    if step.Ok? && step.value.Some? {
      var slot := step.value.value;
      var rest := Walk(slot.value, path[1..]);
      if rest.Ok? {
        var slots := [slot] + rest.value.slots;
        assert |slots| == 1 + |rest.value.slots|;
        if |path| == 1 { assert slots == [slot]; }
        else if |slots| == |path| {
          assert slots[|slots| - 1] == rest.value.slots[|rest.value.slots| - 1];
        }
      }
    }
  }

  /**
   Removing a value below a child: the walk over the marks fails exactly when the walk
   over the tree does, leaves the text alone when the path names nothing, and otherwise
   the cut prints the child without it.
   */
  lemma {:induction false} RemovePrints(text: string, pre: string, k: Kid, post: string, place: Place, m: CNode,
          holder: Option<Slot>, path: seq<Part>)
    requires Site(text, pre, k, post, place, m) && Holds(text, pre, k, place, m, holder) && path != []
    ensures var r := RemoveIn(k, place.Root?, InFlowPlace(place), Col(place), path, Newline(text));
            && WalkRemove(text, holder, m, path) == RemovedResult(pre, r, post)
            && (r.Ok? ==> Shaped(r.value, k, place))
    decreases |path|
  {
    hide PrintKid, PrintNode, KidIn, NodeOk, KidHead, KidLead, Composed, Newline, LineEnd, Column, RemoveAt, RemoveSlot,
         Lift, StepKid, StepInto, WalkRemove, PrintKids, KeyMark, Open, Close, Site, Holds, RemovedText;
    SiteFacts(text, pre, k, post, place, m);
    SiteNode(text, pre, k, post, place, m);
    SameStep(text, k.node, |pre + KidHead(k)|, m, path[0]);
    RemoveOn(text, holder, m, path);
    var step := StepKid(k.node, path[0]);
    if step == Ok(None) {
      StillText(pre, k, post);
    } else if step.Ok? {
      var n, i := k.node, step.value.value;
      if |path| == 1 {
        RemoveAtPrints(text, pre, k, post, place, m, holder, i);
      } else {
        var pre' := pre + KidHead(k) + Open(n) + PrintKids(n.kids[..i]);
        var post' := PrintKids(n.kids[i + 1..]) + Close(n) + k.tail + post;
        var slot := Slot(m, i, m.value[i].key, m.value[i].value);
        var place' := Child(n.flow, n.isMap, i == 0, n.col);
        ChildSite(text, pre, k, post, place, m, i);
        RemovePrints(text, pre', n.kids[i], post', place', m.value[i].value, Some(slot), path[1..]);
        var r := RemoveIn(n.kids[i], false, n.flow, n.col, path[1..], Newline(text));
        if r.Ok? {
          LiftPrints(pre, k, post, place, i, r.value);
        }
      }
    }
  }

  /**
   `remove_value` on a document's text, with whatever marks the composer reports, is the
   printing of the document without the value; it refuses exactly when the removal from
   the tree does, for the same reason.
   */
  lemma RemoveValueSplices(d: Doc, m: CNode, path: seq<Part>)
    requires DocOk(d) && Composed(PrintDoc(d), d.root.node, |KidHead(d.root)|, m)
    ensures RemoveValue(PrintDoc(d), Some(m), path) ==
            match RemoveDoc(d, path)
            case Err(e) => Err(e)
            case Ok(e) => Ok(PrintDoc(e))
  {
    hide NodeOk, KidHead, Composed, PrintKid, RemoveIn, PrintBrs, Walk, RemoveSlot, Newline, HasUnicodeBreak,
         PrintNode, Site, RemovedText, EndAfter, DocOk;
    var text := PrintDoc(d);
    DocSite(d, m);
    if path != [] && !HasUnicodeBreak(text) {
      RemovePrints(text, "", d.root, PrintBrs(d.end), Root, m, None, path);
      WalkIsRemove(text, m, path);
      var r := RemoveIn(d.root, true, false, 0, path, Newline(text));
      if r.Ok? {
        DocRemoved(d, r.value);
      }
    }
  }

  lemma WalkIsRemove(text: string, m: CNode, path: seq<Part>)
    requires path != [] && !HasUnicodeBreak(text)
    ensures RemoveValue(text, Some(m), path) == WalkRemove(text, None, m, path)
  {
    hide Walk, RemoveSlot, HasUnicodeBreak;
    var w := Walk(m, path);
    if w.Ok? {
      var slots := w.value.slots;
      if |slots| >= 2 {
        var front := slots[..|slots| - 1];
        assert front[|front| - 1] == slots[|slots| - 2];
      }
    }
  }

  lemma DocRemoved(d: Doc, r: Removed)
    requires DocOk(d) && Shaped(r, d.root, Root)
    ensures RemovedText("", r, PrintBrs(d.end)) == PrintDoc(Doc(r.kid, EndAfter(r.below, d.end)))
  {
    hide NodeOk, RootOk, KidHead, PrintKid, PrintBrs, KidLead, KidRest, CutText, Merge, Follows, AboveText;
    RestPrints(r.kid);
    NothingAbove("" + KidLead(r.kid));
    if r.below.Some? {
      EmptyBrs();
      if d.end != [] {
        assert d.end[0] in d.end;
        CutMerge(r.below.value, d.end, "");
        assert PrintBrs(d.end) + "" == PrintBrs(d.end);
        assert PrintBrs(Merge(r.below.value, d.end)) + "" == PrintBrs(Merge(r.below.value, d.end));
      } else {
        CutEnd(r.below.value);
      }
    }
    assert "" + KidLead(r.kid) == KidLead(r.kid);
  }
}
