/**
 When the text left by a removal is again a document of the same kind: a condition on the
 document and the path alone. A comment must come to stand neither after a literal block that
 would take it in, nor against a plain scalar that would.
 */
module YamlRemoveFits {
  import opened Text
  import opened YamlValue
  import opened YamlEmit
  import opened YamlBlock
  import opened YamlTree
  import opened YamlBuild
  import opened YamlEdit
  import YamlMarks
  import opened YamlSplice
  import opened YamlSplicePrints
  import opened YamlSetPrints
  import opened YamlFits
  import opened YamlRemove
  import opened YamlRemovePrints
  import opened YamlRemoveWalk

  predicate Stands(place: Place, k: Kid) {
    KidIn(place, k) && NodeOk(k.node)
  }

  /** A value, and the lines from its end to a line below. */
  datatype Over = Over(node: Node, lead: seq<Br>)

  /** A comment left of a literal block at `indent` is among the lines, and ends it. */
  predicate Shut(brs: seq<Br>, indent: nat) {
    exists b :: b in brs && b.note != "" && b.pad < indent
  }

  /** Lines that may follow `n` behind the lines `between`. */
  predicate FollowsPast(n: Node, between: seq<Br>, brs: seq<Br>) {
    Follows(n, brs) || (LastLiteral(n).Some? && Shut(between, LastLiteral(n).value.indent))
  }

  /**
   Child `i` may go: the lines it leaves behind are safe where they come to stand.
   `before` is the value over the child's line when the child stands first on it, with the lines between;
   `after` are the lines under the child. A literal block that a comment has ended is safe from any lines.
   - the last item of a flow collection leaves what follows it to the item before;
   - the lines over a compact item's second key now follow the value above the item;
   - the lines under a child, or under the whole collection, now follow the child before it.
   */
  predicate RemoveHere(k: Kid, root: bool, i: nat, before: Option<Over>, after: seq<Br>)
    requires k.node.Coll? && i < |k.node.kids|
  {
    var n, kids := k.node, k.node.kids;
    if |kids| == 1 then true
    else if n.flow then i + 1 == |kids| && Hashed(n.close) ==> Touchable(kids[i - 1])
    else if i == 0 then
      var lead := kids[1].lead;
      k.drop == [] && !root && |lead| >= 2 && before.Some? ==>
        FollowsPast(before.value.node, before.value.lead, lead[..|lead| - 1])
    else if i + 1 < |kids| then FollowsPast(kids[i - 1].node, kids[i].lead, kids[i + 1].lead)
    else after != [] ==> FollowsPast(kids[i - 1].node, kids[i].lead, after)
  }

  /** The value over child `i`'s first line, and the lines from there to that line. */
  function BeforeKid(k: Kid, root: bool, i: nat, before: Option<Over>): Option<Over>
    requires k.node.Coll? && i < |k.node.kids|
  {
    if i > 0 then Some(Over(k.node.kids[i - 1].node, k.node.kids[i].lead)) else if root || k.drop != [] then None
    else before
  }

  predicate RemoveFits(k: Kid, root: bool, path: seq<Part>, before: Option<Over>, after: seq<Br>)
    requires path != []
    decreases |path|
  {
    match StepKid(k.node, path[0])
    case Err(_) => false
    case Ok(None) => true
    case Ok(Some(i)) =>
      if |path| == 1 then RemoveHere(k, root, i, before, after)
      else RemoveFits(k.node.kids[i], false, path[1..], BeforeKid(k, root, i, before), AfterKid(k.node, i, after))
  }

  predicate RemoveDocFits(d: Doc, path: seq<Part>) {
    path != [] && RemoveFits(d.root, true, path, None, d.end)
  }

  /** A removal that leaves a child well formed in its place, and the lines it moves safe. */
  predicate Lands(place: Place, r: Removed, before: Option<Over>, after: seq<Br>) {
    && Stands(place, r.kid)
    && (r.above != [] && before.Some? ==>
          FollowsPast(before.value.node, before.value.lead, r.above[..|r.above| - 1]))
    && if r.below.None? then Follows(r.kid.node, after)
       else after == [] || FollowsPast(r.kid.node, r.below.value, after)
  }

  /** The lines a removal moves are blank lines and comments, none lost to a literal block before them. */
  predicate LinesOk(r: Removed) {
    && (r.above == [] || |r.above| >= 2) && (forall b | b in r.above :: Trivia(b))
    && (r.below.Some? ==>
          && r.below.value != [] && (forall b | b in r.below.value :: Trivia(b))
          && r.below.value[|r.below.value| - 1].note == "" && Follows(r.kid.node, r.below.value))
  }

  // ------------------------------------------------------------------- leads

  lemma MergeLeads(a: seq<Br>, b: seq<Br>, col: nat)
    requires a != [] && (forall x | x in a :: Trivia(x)) && Leads(b, col)
    ensures Leads(Merge(a, b), col)
  {
    hide Trivia;
    var m := Merge(a, b);
    var last := a[|a| - 1];
    assert last in a && b[0] in b;
    assert Trivia(Br(last.nl, b[0].pad, b[0].note)) by { TriviaOf(last, b[0]); }
  }

  lemma TriviaOf(a: Br, b: Br)
    requires Trivia(a) && Trivia(b)
    ensures Trivia(Br(a.nl, b.pad, b.note)) && Trivia(Br(a.nl, 0, "")) && forall n: nat :: Trivia(Br(a.nl, n, ""))
  {
  }

  lemma AboveLeads(lead: seq<Br>, b: seq<Br>, col: nat)
    requires Leads(lead, col) && |b| >= 2 && forall x | x in b :: Trivia(x)
    ensures Leads(Above(lead, b), col)
  {
    hide Trivia;
    var last, end := lead[|lead| - 1], b[|b| - 1];
    assert last in lead && b[0] in b && end in b;
    TriviaOf(last, b[0]);
    TriviaOf(end, b[0]);
    var body := b[..|b| - 1];
    assert Above(lead, b) == Merge(lead, body) + [Br(end.nl, last.pad, "")];
    forall x | x in Merge(lead, body) ensures Trivia(x) {
      assert x in lead || x == Br(last.nl, b[0].pad, b[0].note) || x in body[1..];
    }
  }

  /** Lines behind others leave the block alone when they do by themselves, or it has ended before them. */
  lemma {:induction false} SparesConcat(a: seq<Br>, b: seq<Br>, indent: nat)
    ensures Spares(a + b, indent) <==> Spares(a, indent) && (Shut(a, indent) || Spares(b, indent))
  {
    if a == [] {
      assert a + b == b;
    } else {
      assert (a + b)[1..] == a[1..] + b;
      SparesConcat(a[1..], b, indent);
      assert a == [a[0]] + a[1..];
    }
  }

  /** What ends a block is not the last of those lines, where a child started. */
  lemma ShutFront(a: seq<Br>, indent: nat)
    requires a != [] && a[|a| - 1].note == ""
    ensures Shut(a[..|a| - 1], indent) <==> Shut(a, indent)
  {
    var front := a[..|a| - 1];
    assert a == front + [a[|a| - 1]];
    assert forall b | b in front :: b in a;
    assert forall b | b in a :: b in front || b == a[|a| - 1];
  }

  lemma MergeFollows(n: Node, a: seq<Br>, b: seq<Br>)
    requires a != [] && b != [] && a[|a| - 1].note == "" && Follows(n, a)
    ensures Follows(n, Merge(a, b)) <==> FollowsPast(n, a, b)
  {
    hide LastLiteral, Shut;
    if LastLiteral(n).Some? {
      var indent, front, last := LastLiteral(n).value.indent, a[..|a| - 1], a[|a| - 1];
      var rest := [Br(last.nl, b[0].pad, b[0].note)] + b[1..];
      assert Merge(a, b) == front + rest && a == front + [last];
      SparesConcat(front, rest, indent);
      SparesConcat(front, [last], indent);
      ShutFront(a, indent);
      assert Spares(b, indent) <==> Spares(rest, indent);
    }
  }

  lemma EndFollows(n: Node, a: seq<Br>)
    requires a != [] && a[|a| - 1].note == "" && Follows(n, a)
    ensures Follows(n, Merge(a, []))
  {
    hide LastLiteral, Shut;
    if LastLiteral(n).Some? {
      var indent, front, last := LastLiteral(n).value.indent, a[..|a| - 1], a[|a| - 1];
      assert Merge(a, []) == front + [Br(last.nl, 0, "")] && a == front + [last];
      SparesConcat(front, [Br(last.nl, 0, "")], indent);
      SparesConcat(front, [last], indent);
    }
  }

  lemma AboveFollows(n: Node, lead: seq<Br>, b: seq<Br>)
    requires lead != [] && lead[|lead| - 1].note == "" && |b| >= 2 && Follows(n, lead)
    ensures Follows(n, Above(lead, b)) <==> FollowsPast(n, lead, b[..|b| - 1])
  {
    hide LastLiteral, Merge, Shut, FollowsPast;
    MergeFollows(n, lead, b[..|b| - 1]);
    if LastLiteral(n).Some? {
      var indent, front, last := LastLiteral(n).value.indent, lead[..|lead| - 1], lead[|lead| - 1];
      var m, end := Merge(lead, b[..|b| - 1]), Br(b[|b| - 1].nl, last.pad, "");
      assert Above(lead, b) == m + [end] && lead == front + [last];
      SparesConcat(m, [end], indent);
      SparesConcat(front, [last], indent);
      ShutFront(lead, indent);
      if Shut(front, indent) {
        MergeShut(lead, b[..|b| - 1], indent);
      }
    }
  }

  /** Joined lines keep the comment that ended the block. */
  lemma MergeShut(a: seq<Br>, b: seq<Br>, indent: nat)
    requires a != [] && b != [] && Shut(a[..|a| - 1], indent)
    ensures Shut(Merge(a, b), indent)
  {
    assert forall x | x in a[..|a| - 1] :: x in Merge(a, b);
  }

  /** A child's literal ending depends on its last child only. */
  lemma LastOf(n: Node)
    requires n.Coll? && !n.flow && n.kids != []
    ensures LastLiteral(n) == LastLiteral(n.kids[|n.kids| - 1].node)
  {
  }

  lemma PastLast(a: Node, b: Node, between: seq<Br>, brs: seq<Br>)
    requires LastLiteral(a) == LastLiteral(b)
    ensures FollowsPast(a, between, brs) <==> FollowsPast(b, between, brs)
  {
    hide LastLiteral, Shut;
  }

  lemma FollowsLast(a: Node, b: Node, brs: seq<Br>)
    requires LastLiteral(a) == LastLiteral(b)
    ensures Follows(a, brs) <==> Follows(b, brs)
  {
    hide LastLiteral;
  }

  // --------------------------------------------------------- one child removed

  /** A block child keeps its place when its lead is another good one. */
  lemma LeadChanged(k: Kid, col: nat, first: bool, isMap: bool, lead: seq<Br>)
    requires k.sep == "" && Leads(lead, col) && Leads(k.lead, col)
    ensures BlockKidOk(k.(lead := lead), col, false, isMap) <==> BlockKidOk(k, col, false, isMap)
  {
    hide Leads, ReadScalar, Placed;
    PlacedSame(k, col, lead);
  }

  lemma PlacedSame(k: Kid, col: nat, lead: seq<Br>)
    ensures Placed(k.(lead := lead), col) <==> Placed(k, col)
  {
    hide Leads;
    assert StartCol(k.(lead := lead), col) == StartCol(k, col);
  }

  lemma MidGone(n: Node, i: nat)
    requires n.Coll? && !n.flow && NodeOk(n) && 0 < i < |n.kids| - 1
    ensures var kids := n.kids;
            kids[i].lead != [] &&
            (NodeOk(n.(kids := kids[..i] + [kids[i + 1].(lead := Merge(kids[i].lead, kids[i + 1].lead))]
              + kids[i + 2..]))
             <==> FollowsPast(kids[i - 1].node, kids[i].lead, kids[i + 1].lead))
  {
    hide NodeOk, BlockKidOk, Follows, FollowsPast, Merge, Leads, Trivia, FlowShape;
    CollParts(n);
    var kids := n.kids;
    NextLead(kids[i], n.col, n.isMap);
    NextLead(kids[i + 1], n.col, n.isMap);
    var lead := Merge(kids[i].lead, kids[i + 1].lead);
    LeadsTrivia(kids[i].lead, n.col);
    MergeLeads(kids[i].lead, kids[i + 1].lead, n.col);
    assert Follows(kids[i - 1].node, kids[i].lead) by { assert kids[i - 1 + 1] == kids[i]; }
    MergeFollows(kids[i - 1].node, kids[i].lead, kids[i + 1].lead);
    var follow := kids[i + 1].(lead := lead);
    LeadChanged(kids[i + 1], n.col, false, n.isMap, lead);
    var left := kids[..i] + [follow] + kids[i + 2..];
    var g := n.(kids := left);
    CollParts(g);
    forall j | 0 <= j < |left| ensures NodeOk(left[j].node) && BlockKidOk(left[j], n.col, j == 0, n.isMap) {
      if j < i { assert left[j] == kids[j]; }
      else if j == i { assert left[j] == follow; }
      else { assert left[j] == kids[j + 1]; }
    }
    assert left[i - 1] == kids[i - 1] && left[i - 1 + 1].lead == lead;
    forall j | 0 <= j < |left| - 1 && j != i - 1 ensures Follows(left[j].node, left[j + 1].lead) {
      if j < i - 1 { assert left[j] == kids[j] && left[j + 1] == kids[j + 1]; }
      else { assert left[j].node == kids[j + 1].node && left[j + 1] == kids[j + 2]; }
    }
  }

  lemma LeadsTrivia(lead: seq<Br>, col: nat)
    requires Leads(lead, col)
    ensures lead != [] && lead[|lead| - 1].note == "" && forall x | x in lead :: Trivia(x)
  {
  }

  lemma LastGone(n: Node)
    requires n.Coll? && !n.flow && NodeOk(n) && |n.kids| >= 2
    ensures var last := |n.kids| - 1;
            && NodeOk(n.(kids := n.kids[..last])) && n.kids[last].lead != []
            && (forall b | b in n.kids[last].lead :: Trivia(b))
            && n.kids[last].lead[|n.kids[last].lead| - 1].note == ""
            && Follows(n.(kids := n.kids[..last]), n.kids[last].lead)
  {
    hide NodeOk, BlockKidOk, Follows, Leads, Trivia, FlowShape, LastLiteral;
    CollParts(n);
    var last := |n.kids| - 1;
    var g := n.(kids := n.kids[..last]);
    CollParts(g);
    NextLead(n.kids[last], n.col, n.isMap);
    LeadsTrivia(n.kids[last].lead, n.col);
    LastOf(g);
    assert Follows(n.kids[last - 1].node, n.kids[last - 1 + 1].lead);
    FollowsLast(g, n.kids[last - 1].node, n.kids[last].lead);
  }

  lemma HeadGone(n: Node)
    requires n.Coll? && !n.flow && NodeOk(n) && |n.kids| >= 2
    ensures NodeOk(n.(kids := [n.kids[1].(lead := [])] + n.kids[2..]))
    ensures BlockKidOk(n.kids[1].(lead := []), n.col, true, n.isMap)
    ensures Leads(n.kids[1].lead, n.col)
  {
    hide NodeOk, Follows, Trivia, FlowShape;
    CollParts(n);
    var left := [n.kids[1].(lead := [])] + n.kids[2..];
    var g := n.(kids := left);
    CollParts(g);
    NextLead(n.kids[1], n.col, n.isMap);
    assert BlockKidOk(n.kids[1].(lead := []), n.col, true, n.isMap) by {
      hide Leads, ReadScalar, Placed;
      PlacedSame(n.kids[1], n.col, []);
    }
    forall j | 0 <= j < |left| ensures NodeOk(left[j].node) && BlockKidOk(left[j], n.col, j == 0, n.isMap) {
      if j > 0 { assert left[j] == n.kids[j + 1]; }
    }
    forall j | 0 <= j < |left| - 1 ensures Follows(left[j].node, left[j + 1].lead) {
      assert left[j].node == n.kids[j + 1].node && left[j + 1] == n.kids[j + 2];
    }
  }

  lemma FlowGone(n: Node, i: nat)
    requires n.Coll? && n.flow && NodeOk(n) && i < |n.kids| && |n.kids| >= 2
    ensures var kids := n.kids;
            NodeOk(n.(kids := if i + 1 < |kids| then kids[..i] + [kids[i + 1].(sep := kids[i].sep)] + kids[i + 2..]
                   else kids[..i]))
            <==> (i + 1 == |kids| && Hashed(n.close) ==> Touchable(kids[i - 1]))
  {
    hide *;
    var kids := n.kids;
    CollParts(n);
    if i + 1 < |kids| {
      FlowWithout(kids, n.close, n.isMap, i);
      CollParts(n.(kids := kids[..i] + [kids[i + 1].(sep := kids[i].sep)] + kids[i + 2..]));
    } else {
      FlowShorter(kids, n.close, n.isMap);
      CollParts(n.(kids := kids[..i]));
    }
  }

  /** A flow collection without a child before its last. */
  lemma FlowWithout(kids: seq<Kid>, close: string, isMap: bool, i: nat)
    requires KidNodesOk(kids) && FlowShape(kids, close, isMap) && i + 1 < |kids|
    ensures var left := kids[..i] + [kids[i + 1].(sep := kids[i].sep)] + kids[i + 2..];
            KidNodesOk(left) && FlowShape(left, close, isMap)
  {
    hide NodeOk, Clear, Beyond;
    var left := kids[..i] + [kids[i + 1].(sep := kids[i].sep)] + kids[i + 2..];
    assert FlowKidOk(kids[i + 1].(sep := kids[i].sep), i == 0, isMap) by {
      hide FlowBlank, Comma, ReadScalar, PrintNode;
    }
    forall j | 0 <= j < |left| ensures NodeOk(left[j].node) && FlowKidOk(left[j], j == 0, isMap) {
      WithoutAt(kids, close, i, j);
    }
    ClearWithout(kids, close, i);
  }

  /** Without its last child: what stood behind that child stands behind the one before it. */
  lemma FlowShorter(kids: seq<Kid>, close: string, isMap: bool)
    requires KidNodesOk(kids) && FlowShape(kids, close, isMap) && |kids| >= 2
    ensures KidNodesOk(kids[..|kids| - 1])
    ensures FlowShape(kids[..|kids| - 1], close, isMap) <==> (Hashed(close) ==> Touchable(kids[|kids| - 2]))
  {
    hide FlowKidOk, NodeOk, FlowBlank, Comma;
    assert Clear(kids[..|kids| - 1], close) <==> (Hashed(close) ==> Touchable(kids[|kids| - 2])) by {
      hide Touchable;
      var left, last := kids[..|kids| - 1], |kids| - 2;
      assert Beyond(left, close, last) == close && left[last] == kids[last];
      forall j | 0 <= j < last ensures Hashed(Beyond(left, close, j)) ==> Touchable(left[j]) {
        assert Beyond(left, close, j) == Beyond(kids, close, j);
      }
    }
  }

  lemma ClearWithout(kids: seq<Kid>, close: string, i: nat)
    requires Clear(kids, close) && i + 1 < |kids|
    ensures Clear(kids[..i] + [kids[i + 1].(sep := kids[i].sep)] + kids[i + 2..], close)
  {
    var left := kids[..i] + [kids[i + 1].(sep := kids[i].sep)] + kids[i + 2..];
    assert Touchable(kids[i + 1].(sep := kids[i].sep)) <==> Touchable(kids[i + 1]);
    forall j | 0 <= j < |left| ensures Hashed(Beyond(left, close, j)) ==> Touchable(left[j]) {
      WithoutAt(kids, close, i, j);
    }
  }

  /** What stands where once child `i` is gone. */
  lemma WithoutAt(kids: seq<Kid>, close: string, i: nat, j: nat)
    requires i + 1 < |kids| && j < |kids| - 1
    ensures var left := kids[..i] + [kids[i + 1].(sep := kids[i].sep)] + kids[i + 2..];
            && |left| == |kids| - 1
            && Beyond(left, close, j) == Beyond(kids, close, if j < i then j else j + 1)
            && left[j] == if j < i then kids[j] else if j == i then kids[i + 1].(sep := kids[i].sep) else kids[j + 1]
  {
  }

  lemma DropChanged(place: Place, k: Kid, drop: seq<Br>)
    requires KidIn(place, k) && k.node.Coll? && !k.node.flow && k.drop != [] && Leads(drop, StartCol(k, Col(place)))
    ensures KidIn(place, k.(drop := drop))
  {
    hide Trivia, ReadScalar, PrintNode, FlowBlank, Comma;
    LeadsShape(drop, StartCol(k, Col(place)));
    assert drop != [] && drop[|drop| - 1].pad == (StartCol(k, Col(place)));
  }

  lemma HeadChanged(k: Kid, lines: seq<Br>)
    requires RootOk(k) && k.node.Coll? && !k.node.flow && lines != []
    requires (forall b | b in lines :: Trivia(b)) && lines[|lines| - 1].pad == k.node.col
             && lines[|lines| - 1].note == ""
    ensures RootOk(k.(gap := Spaces(lines[0].pad) + lines[0].note, drop := lines[1..]))
  {
    hide PrintNode, Remark, OneLine, Trailing, Spaces;
    var gap := Spaces(lines[0].pad) + lines[0].note;
    if |lines| == 1 {
      assert gap == Spaces(lines[0].pad);
    } else {
      HeadGap(lines[0]);
      assert Leads(lines[1..], k.node.col) by {
        hide Trivia;
        var drop := lines[1..];
        assert forall b | b in drop :: b in lines;
        assert drop[|drop| - 1] == lines[|lines| - 1];
      }
    }
  }

  lemma HeadGap(b: Br)
    requires Trivia(b)
    ensures OneLine(Spaces(b.pad) + b.note) && Remark(Spaces(b.pad) + b.note)
  {
    PadRemark(b.pad, b.note);
  }

  lemma {:induction false} PadRemark(pad: nat, note: string)
    requires OneLine(note) && (note == "" || note[0] == '#')
    ensures OneLine(Spaces(pad) + note) && Remark(Spaces(pad) + note)
  {
    hide Spaces;
    var s := Spaces(pad) + note;
    if pad > 0 {
      assert s[1..] == Spaces(pad - 1) + note;
      PadRemark(pad - 1, note);
    } else {
      assert s == note;
    }
  }

  lemma BlockStands(place: Place, k: Kid, kids: seq<Kid>)
    requires Stands(place, k) && k.node.Coll? && NodeOk(k.node.(kids := kids)) && kids != []
    ensures Stands(place, WithKids(k, kids))
    ensures WithKids(k, kids).node == k.node.(kids := kids)
  {
    hide NodeOk, BlockKidOk, KidIn;
    var g := k.node.(kids := kids);
    if !k.node.flow { NodeClose(g); }
    SameBracketsOk(place, k, kids);
  }

  /** A child removed leaves its holder well formed and the lines around it safe exactly when it may go. */
  lemma RemoveAtOk(place: Place, k: Kid, i: nat, nl: string, before: Option<Over>, after: seq<Br>)
    requires Stands(place, k) && k.node.Coll? && i < |k.node.kids| && LineBreak(nl) && Follows(k.node, after)
    requires RemoveAt(k, place.Root?, InFlowPlace(place), Col(place), i, nl).Ok?
    ensures var r := RemoveAt(k, place.Root?, InFlowPlace(place), Col(place), i, nl).value;
            LinesOk(r) && r.kid.node.Coll?
                    && (Lands(place, r, before, after) <==> RemoveHere(k, place.Root?, i, before, after))
  {
    hide FollowsPast, NodeOk, KidIn, Follows, Merge, Leads, Trivia, ReplaceKid, LineBreak, Touchable, LastLiteral,
         RemoveHere, Lands, LinesOk;
    var n, kids := k.node, k.node.kids;
    if |kids| == 1 {
      OnlyGone(place, k, nl, before, after);
    } else if n.flow {
      FlowGoneOk(place, k, i, nl, before, after);
    } else if i == 0 {
      FirstGoneOk(place, k, nl, before, after);
    } else if i + 1 < |kids| {
      MidGoneOk(place, k, i, nl, before, after);
    } else {
      LastGoneOk(place, k, nl, before, after);
    }
  }

  lemma OnlyGone(place: Place, k: Kid, nl: string, before: Option<Over>, after: seq<Br>)
    requires Stands(place, k) && k.node.Coll? && |k.node.kids| == 1 && place.Child? && LineBreak(nl)
    ensures var r := RemoveAt(k, place.Root?, InFlowPlace(place), Col(place), 0, nl);
            r.Ok? && LinesOk(r.value) && r.value.kid.node.Coll? && Lands(place, r.value, before, after)
    ensures RemoveHere(k, place.Root?, 0, before, after)
  {
    hide FollowsPast, NodeOk, KidIn, LineBreak, PrintNode, Follows, Touchable, ReplaceFits;
    var empty := if k.node.isMap then Dict([]) else List([]);
    ReplaceOk(place, k, empty, true, nl, false, after);
    EmptyFits(place, k, empty, after);
    assert ReplaceKid(k, InFlowPlace(place), Col(place), empty, true, nl).node.Coll?;
  }

  lemma EmptyFits(place: Place, k: Kid, empty: Value, after: seq<Br>)
    requires Stands(place, k) && k.node.Coll? && empty in {Dict([]), List([])}
    ensures ReplaceFits(k, InFlowPlace(place), Col(place), empty, true, false, after)
  {
    hide NodeOk, KidIn, PrintNode;
    BlockShown(k.node);
  }

  lemma FlowGoneOk(place: Place, k: Kid, i: nat, nl: string, before: Option<Over>, after: seq<Br>)
    requires Stands(place, k) && k.node.Coll? && k.node.flow && i < |k.node.kids| && |k.node.kids| >= 2
    ensures var r := RemoveAt(k, place.Root?, InFlowPlace(place), Col(place), i, nl);
            && r.Ok? && LinesOk(r.value) && r.value.kid.node.Coll?
            && (Lands(place, r.value, before, after) <==> RemoveHere(k, place.Root?, i, before, after))
  {
    hide NodeOk, KidIn, Follows, Touchable, LastLiteral, Merge;
    var n, kids := k.node, k.node.kids;
    var left := if i + 1 < |kids| then kids[..i] + [kids[i + 1].(sep := kids[i].sep)] + kids[i + 2..] else kids[..i];
    FlowGone(n, i);
    if NodeOk(n.(kids := left)) { BlockStands(place, k, left); }
    FlowFollows(n.(kids := left), after);
  }

  lemma FlowFollows(n: Node, after: seq<Br>)
    requires n.Coll? && n.flow
    ensures Follows(n, after)
  {
  }

  lemma MidGoneOk(place: Place, k: Kid, i: nat, nl: string, before: Option<Over>, after: seq<Br>)
    requires Stands(place, k) && k.node.Coll? && !k.node.flow && 0 < i < |k.node.kids| - 1 && Follows(k.node, after)
    requires RemoveAt(k, place.Root?, InFlowPlace(place), Col(place), i, nl).Ok?
    ensures var r := RemoveAt(k, place.Root?, InFlowPlace(place), Col(place), i, nl).value;
            && LinesOk(r) && r.kid.node.Coll?
            && (Lands(place, r, before, after) <==> RemoveHere(k, place.Root?, i, before, after))
  {
    hide NodeOk, KidIn, Follows, Merge, Leads, Trivia, LastLiteral, Touchable;
    var n, kids := k.node, k.node.kids;
    LeadsLater(n);
    MidGone(n, i);
    var left := kids[..i] + [kids[i + 1].(lead := Merge(kids[i].lead, kids[i + 1].lead))] + kids[i + 2..];
    if NodeOk(n.(kids := left)) { BlockStands(place, k, left); }
    LastFollowsToo(n, after);
    LastFollowsToo(n.(kids := left), after);
    SameFollows(left[|left| - 1].node, kids[|kids| - 1].node, after);
  }

  lemma SameFollows(a: Node, b: Node, after: seq<Br>)
    requires a == b
    ensures Follows(a, after) <==> Follows(b, after)
  {
  }

  lemma LastGoneOk(place: Place, k: Kid, nl: string, before: Option<Over>, after: seq<Br>)
    requires Stands(place, k) && k.node.Coll? && !k.node.flow && |k.node.kids| >= 2
    requires RemoveAt(k, place.Root?, InFlowPlace(place), Col(place), |k.node.kids| - 1, nl).Ok?
    ensures var i := |k.node.kids| - 1;
            var r := RemoveAt(k, place.Root?, InFlowPlace(place), Col(place), i, nl).value;
            && LinesOk(r) && r.kid.node.Coll?
            && (Lands(place, r, before, after) <==> RemoveHere(k, place.Root?, i, before, after))
  {
    hide NodeOk, KidIn, Follows, Merge, Leads, Trivia, LastLiteral, Touchable;
    var n, kids := k.node, k.node.kids;
    LeadsLater(n);
    LastGone(n);
    var left := kids[..|kids| - 1];
    BlockStands(place, k, left);
    LastOf(n.(kids := left));
    PastLast(n.(kids := left), kids[|kids| - 2].node, kids[|kids| - 1].lead, after);
    LastFollowsToo(n.(kids := left), after);
  }

  lemma FirstGoneOk(place: Place, k: Kid, nl: string, before: Option<Over>, after: seq<Br>)
    requires Stands(place, k) && k.node.Coll? && !k.node.flow && |k.node.kids| >= 2 && Follows(k.node, after)
    requires RemoveAt(k, place.Root?, InFlowPlace(place), Col(place), 0, nl).Ok?
    ensures var r := RemoveAt(k, place.Root?, InFlowPlace(place), Col(place), 0, nl).value;
            && LinesOk(r) && r.kid.node.Coll?
            && (Lands(place, r, before, after) <==> RemoveHere(k, place.Root?, 0, before, after))
  {
    hide NodeOk, KidIn, Follows, Merge, Leads, Trivia, StartCol, BlockKidOk, LastLiteral, Touchable, RemoveAt;
    var n := k.node;
    var lead, left := n.kids[1].lead, [n.kids[1].(lead := [])] + n.kids[2..];
    HeadGone(n);
    LeadsTrivia(lead, n.col);
    LeadsShape(lead, n.col);
    FirstGoneStands(place, k, nl);
    LastFollowsToo(n, after);
    LastFollowsToo(n.(kids := left), after);
    SameFollows(left[|left| - 1].node, n.kids[|n.kids| - 1].node, after);
    FirstGoneNode(k, place, nl);
  }

  lemma FirstGoneNode(k: Kid, place: Place, nl: string)
    requires k.node.Coll? && !k.node.flow && |k.node.kids| >= 2 && k.node.kids[1].lead != []
    requires RemoveAt(k, place.Root?, InFlowPlace(place), Col(place), 0, nl).Ok?
    ensures var r := RemoveAt(k, place.Root?, InFlowPlace(place), Col(place), 0, nl).value;
            var lead := k.node.kids[1].lead;
            && r.kid.node == k.node.(kids := [k.node.kids[1].(lead := [])] + k.node.kids[2..]) && r.below == None
            && r.above == if k.drop != [] || place.Root? || |lead| <= 1 then [] else lead
  {
    hide Merge;
  }

  lemma FirstGoneStands(place: Place, k: Kid, nl: string)
    requires Stands(place, k) && k.node.Coll? && !k.node.flow && |k.node.kids| >= 2
    requires RemoveAt(k, place.Root?, InFlowPlace(place), Col(place), 0, nl).Ok?
    ensures Stands(place, RemoveAt(k, place.Root?, InFlowPlace(place), Col(place), 0, nl).value.kid)
  {
    hide NodeOk, KidIn, Follows, Merge, Leads, Trivia, StartCol, BlockKidOk;
    var n := k.node;
    var lead := n.kids[1].lead;
    HeadGone(n);
    var left := [n.kids[1].(lead := [])] + n.kids[2..];
    BlockStands(place, k, left);
    BlockPlace(k, place);
    LeadsTrivia(lead, n.col);
    LeadsShape(lead, n.col);
    var g := WithKids(k, left);
    if k.drop != [] {
      LeadsTrivia(k.drop, StartCol(k, Col(place)));
      MergeLeads(k.drop, lead, n.col);
      SameStartCol(k, g, Col(place));
      DropChanged(place, g, Merge(k.drop, lead));
    } else if place.Root? {
      HeadIn(g, lead);
    }
  }

  lemma HeadIn(g: Kid, lead: seq<Br>)
    requires Stands(Root, g) && g.node.Coll? && !g.node.flow && Leads(lead, g.node.col)
    ensures lead != [] && Stands(Root, HeadCut(g, lead))
  {
    hide NodeOk, RootOk, Trivia;
    HeadChanged(g, lead);
  }

  lemma LeadsShape(lead: seq<Br>, col: nat)
    requires Leads(lead, col)
    ensures lead != []
  {
  }

  lemma SameStartCol(a: Kid, b: Kid, col: nat)
    requires a.drop == b.drop && a.gap == b.gap && a.mark == b.mark
    ensures StartCol(a, col) == StartCol(b, col)
  {
  }

  // ------------------------------------------------------------------ lifting

  /** A block collection with one child replaced, and the lead after it: what must hold at the seams. */
  lemma SeamOk(n: Node, i: nat, kids: seq<Kid>)
    requires n.Coll? && !n.flow && NodeOk(n) && i < |n.kids| == |kids|
    requires forall j | 0 <= j < |kids| && j != i && j != i + 1 :: kids[j] == n.kids[j]
    requires i + 1 < |kids| ==>
             kids[i + 1] == n.kids[i + 1].(lead := kids[i + 1].lead) && Leads(kids[i + 1].lead, n.col)
    ensures NodeOk(n.(kids := kids)) <==>
            && NodeOk(kids[i].node) && BlockKidOk(kids[i], n.col, i == 0, n.isMap)
            && (i > 0 ==> Follows(n.kids[i - 1].node, kids[i].lead))
            && (i + 1 < |kids| ==> Follows(kids[i].node, kids[i + 1].lead))
  {
    hide NodeOk, BlockKidOk, Follows, Leads, FlowShape;
    CollParts(n);
    var g := n.(kids := kids);
    CollParts(g);
    if i + 1 < |kids| {
      NextLead(n.kids[i + 1], n.col, n.isMap);
      LeadChanged(n.kids[i + 1], n.col, false, n.isMap, kids[i + 1].lead);
    }
    assert forall j | 0 <= j < |kids| && j != i :: NodeOk(kids[j].node) && BlockKidOk(kids[j], n.col, j == 0, n.isMap);
    forall j | 0 <= j < |kids| - 1 && j != i && j + 1 != i ensures Follows(kids[j].node, kids[j + 1].lead) {
      assert kids[j].node == n.kids[j].node;
      assert Follows(n.kids[j].node, n.kids[j + 1].lead);
      assert kids[j + 1].lead == n.kids[j + 1].lead;
    }
    if i > 0 { assert kids[i - 1] == n.kids[i - 1] && kids[i - 1 + 1] == kids[i]; }
  }

  /** What a removal below child `i` must meet for child `i`'s holder. */
  predicate Seams(n: Node, i: nat, r: Removed)
    requires n.Coll? && i < |n.kids| && (r.above == [] || |r.above| >= 2)
  {
    && Stands(Child(n.flow, n.isMap, i == 0, n.col), r.kid) && (TouchedKid(n, i) ==> Touchable(r.kid))
    && (r.above != [] && i > 0 ==>
          FollowsPast(n.kids[i - 1].node, n.kids[i].lead, r.above[..|r.above| - 1]))
    && (!n.flow && i + 1 < |n.kids| ==>
          if r.below.None? then Follows(r.kid.node, n.kids[i + 1].lead)
          else FollowsPast(r.kid.node, r.below.value, n.kids[i + 1].lead))
  }

  /** The children that are neither lifted nor next stay; the next one may take a longer lead. */
  lemma LiftOthers(k: Kid, root: bool, i: nat, r: Removed)
    requires k.node.Coll? && i < |k.node.kids|
    ensures var n, kids := k.node, Lift(k, root, i, r).kid.node.kids;
            && |kids| == |n.kids| && (forall j | 0 <= j < |kids| && j != i && j != i + 1 :: kids[j] == n.kids[j])
            && (i + 1 < |kids| ==>
                  kids[i + 1] == if r.below.Some? && r.below.value != []
                                 then n.kids[i + 1].(lead := Merge(r.below.value, n.kids[i + 1].lead))
                                      else n.kids[i + 1])
  {
    hide Above, Merge;
  }

  lemma LiftNodeOk(k: Kid, root: bool, i: nat, r: Removed)
    requires k.node.Coll? && NodeOk(k.node) && i < |k.node.kids|
    requires LinesOk(r) && Shaped(r, k.node.kids[i], Child(k.node.flow, k.node.isMap, i == 0, k.node.col))
    ensures var l := Lift(k, root, i, r);
            && l.kid.node.Coll? && l.kid.node == k.node.(kids := l.kid.node.kids)
            && (NodeOk(l.kid.node) <==> Seams(k.node, i, r))
  {
    hide FollowsPast, NodeOk, Follows, Leads, Merge, Above, HeadAbove, Lift, Trivia, FlowShape;
    var n := k.node;
    LiftParts(k, root, i, r);
    LiftOthers(k, root, i, r);
    var kids' := Lift(k, root, i, r).kid.node.kids;
    if n.flow {
      assert kids' == n.kids[i := r.kid];
      ChildReplaced(n, i, r.kid);
    } else {
      CollParts(n);
      var was, child := n.kids[i], kids'[i];
      if i > 0 {
        NextLead(was, n.col, n.isMap);
        LeadsTrivia(was.lead, n.col);
        assert Follows(n.kids[i - 1].node, n.kids[i - 1 + 1].lead);
      }
      if r.above != [] && i > 0 {
        AboveLeads(was.lead, r.above, n.col);
        LeadChanged(r.kid, n.col, false, n.isMap, child.lead);
        AboveFollows(n.kids[i - 1].node, was.lead, r.above);
      }
      assert BlockKidOk(child, n.col, i == 0, n.isMap) <==> BlockKidOk(r.kid, n.col, i == 0, n.isMap);
      if i + 1 < |n.kids| {
        var next := n.kids[i + 1];
        NextLead(next, n.col, n.isMap);
        if r.below.Some? {
          MergeLeads(r.below.value, next.lead, n.col);
          MergeFollows(r.kid.node, r.below.value, next.lead);
        }
      }
      SeamOk(n, i, kids');
      assert KidIn(Child(n.flow, n.isMap, i == 0, n.col), r.kid) <==> BlockKidOk(r.kid, n.col, i == 0, n.isMap) by {
        hide BlockKidOk;
      }
    }
  }

  /** A removal below a child leaves the holder well formed exactly when it leaves the child so and the seams hold. */
  lemma LiftOk(place: Place, k: Kid, i: nat, r: Removed)
    requires Stands(place, k) && k.node.Coll? && i < |k.node.kids|
    requires LinesOk(r) && Shaped(r, k.node.kids[i], Child(k.node.flow, k.node.isMap, i == 0, k.node.col))
    ensures LinesOk(Lift(k, place.Root?, i, r))
    ensures Stands(place, Lift(k, place.Root?, i, r).kid) <==> Seams(k.node, i, r)
  {
    hide FollowsPast, NodeOk, BlockKidOk, Follows, Leads, KidIn, Merge, Above, Lift, Trivia, Seams, StartCol,
         OneLine;
    var n, l := k.node, Lift(k, place.Root?, i, r);
    LiftNodeOk(k, place.Root?, i, r);
    LiftParts(k, place.Root?, i, r);
    var kids' := l.kid.node.kids;
    if l.below.Some? {
      assert !n.flow && i + 1 == |n.kids|;
      LastOf(l.kid.node);
      FollowsLast(l.kid.node, r.kid.node, r.below.value);
    }
    if NodeOk(l.kid.node) {
      BlockStands(place, k, kids');
      var left := WithKids(k, kids');
      assert WithKids(k, kids') == k.(node := k.node.(kids := kids'));
      if r.above != [] && i == 0 {
        BlockPlace(k, place);
        if k.drop != [] {
          AboveLeads(k.drop, r.above, StartCol(k, Col(place)));
          SameStartCol(k, left, Col(place));
          DropChanged(place, left, Above(k.drop, r.above));
          assert l.kid == left.(drop := Above(k.drop, r.above));
        } else if place.Root? {
          RootColumnNode(k);
          HeadAboveOk(left, r.above);
          assert HeadAbove(left, r.above)
                 == left.(gap := HeadAbove(k, r.above).gap, drop := HeadAbove(k, r.above).drop);
          assert l.kid == HeadAbove(left, r.above);
        } else {
          assert l.kid == left;
        }
      } else {
        assert l.kid == left;
      }
    }
  }

  lemma RootColumnNode(k: Kid)
    requires KidIn(Root, k) && k.drop == [] && k.node.Coll? && !k.node.flow
    ensures k.node.col == |k.gap|
  {
    hide Leads, PrintNode;
  }

  lemma HeadAboveOk(left: Kid, up: seq<Br>)
    requires Stands(Root, left) && left.node.Coll? && !left.node.flow && left.node.col == |left.gap|
    requires |up| >= 2 && forall b | b in up :: Trivia(b)
    ensures Stands(Root, HeadAbove(left, up))
  {
    hide NodeOk, RootOk, Trivia;
    var end := up[|up| - 1];
    var lines := up[..|up| - 1] + [Br(end.nl, |left.gap|, "")];
    assert end in up;
    TriviaOf(end, end);
    assert forall b | b in lines :: b in up || b == Br(end.nl, |left.gap|, "");
    HeadChanged(left, lines);
    assert lines[1..] == up[1..|up| - 1] + [Br(end.nl, |left.gap|, "")];
    assert lines[0] == up[0];
  }

  /** Lifted, a removal lands where the removal below did. */
  lemma LiftLands(place: Place, k: Kid, i: nat, r: Removed, before: Option<Over>, after: seq<Br>)
    requires Stands(place, k) && k.node.Coll? && i < |k.node.kids| && Follows(k.node, after)
    requires LinesOk(r) && Shaped(r, k.node.kids[i], Child(k.node.flow, k.node.isMap, i == 0, k.node.col))
    requires Touchable(k.node.kids[i]) ==> Touchable(r.kid)
    ensures var l, n := Lift(k, place.Root?, i, r), k.node;
            && LinesOk(l) && l.kid.node.Coll?
            && (Lands(place, l, before, after) <==>
                Lands(Child(n.flow, n.isMap, i == 0, n.col), r, BeforeKid(k, place.Root?, i, before),
                      AfterKid(n, i, after)))
  {
    hide FollowsPast, NodeOk, BlockKidOk, Follows, Leads, KidIn, Merge, Above, HeadAbove, Lift, Trivia, StartCol,
         Touchable, LastLiteral, Clear, LinesOk;
    var n, l := k.node, Lift(k, place.Root?, i, r);
    LiftOk(place, k, i, r);
    LiftParts(k, place.Root?, i, r);
    LiftOthers(k, place.Root?, i, r);
    assert TouchedKid(n, i) ==> Touchable(r.kid) by {
      hide NodeOk, Touchable, Clear;
      if n.flow {
        NodeClear(n);
        ClearAt(n.kids, n.close, i);
      }
    }
    if n.flow {
      FlowFollows(l.kid.node, after);
      if Stands(Child(true, n.isMap, i == 0, n.col), r.kid) {
        FlowKidNone(r.kid, i == 0, n.isMap, n.col);
        NoneFollows(r.kid.node, after);
      }
    } else {
      if i + 1 < |n.kids| { NextFollows(n, i); LeadsLater(n); }
      LastFollowsToo(n, after);
      LastFollowsToo(l.kid.node, after);
      if i + 1 == |n.kids| && r.below.Some? {
        LastOf(l.kid.node);
        PastLast(l.kid.node, r.kid.node, r.below.value, after);
      }
    }
  }

  /** A removal below a child lands exactly when it fits. */
  lemma {:induction false} RemoveInOk(place: Place, k: Kid, path: seq<Part>, nl: string, before: Option<Over>,
          after: seq<Br>)
    requires Stands(place, k) && path != [] && LineBreak(nl) && Follows(k.node, after)
    requires RemoveIn(k, place.Root?, InFlowPlace(place), Col(place), path, nl).Ok?
    ensures var r := RemoveIn(k, place.Root?, InFlowPlace(place), Col(place), path, nl).value;
            && LinesOk(r) && Shaped(r, k, place) && (Touchable(k) ==> Touchable(r.kid))
            && (Lands(place, r, before, after) <==> RemoveFits(k, place.Root?, path, before, after))
    decreases |path|
  {
    hide FollowsPast, NodeOk, KidIn, Follows, StepKid, LineBreak, RemoveAt, Lift, Trivia, Touchable, RemoveHere,
         BeforeKid, AfterKid, Above;
    var step := StepKid(k.node, path[0]).value;
    if step.None? {
      assert LinesOk(Removed(k, [], None));
    } else {
      var n, i := k.node, step.value;
      if |path| == 1 {
        RemoveAtOk(place, k, i, nl, before, after);
        RemoveAtShape(place, k, i, nl);
        CollTouchable(RemoveAt(k, place.Root?, InFlowPlace(place), Col(place), i, nl).value.kid);
      } else {
        KidSits(n, i, after);
        var place' := Child(n.flow, n.isMap, i == 0, n.col);
        RemoveInOk(place', n.kids[i], path[1..], nl, BeforeKid(k, place.Root?, i, before), AfterKid(n, i, after));
        var r := RemoveIn(n.kids[i], false, n.flow, n.col, path[1..], nl).value;
        LiftLands(place, k, i, r, before, after);
        assert Shaped(Lift(k, place.Root?, i, r), k, place) by {
          hide NodeOk, KidIn, Merge, Above, Lift, HeadAbove;
          LiftParts(k, place.Root?, i, r);
          if !k.node.flow { BlockTail(k, place); }
        }
        CollTouchable(Lift(k, place.Root?, i, r).kid);
      }
    }
  }

  lemma CollTouchable(k: Kid)
    requires k.node.Coll?
    ensures Touchable(k)
  {
  }

  lemma RemoveAtShape(place: Place, k: Kid, i: nat, nl: string)
    requires Stands(place, k) && k.node.Coll? && i < |k.node.kids|
    requires RemoveAt(k, place.Root?, InFlowPlace(place), Col(place), i, nl).Ok?
    ensures Shaped(RemoveAt(k, place.Root?, InFlowPlace(place), Col(place), i, nl).value, k, place)
  {
    hide NodeOk, KidIn, ReplaceKid, Merge;
    var n := k.node;
    ReplaceStart(k, InFlowPlace(place), Col(place), if n.isMap then Dict([]) else List([]), true, nl);
    if !n.flow { BlockTail(k, place); LeadsLater(n); }
    assert forall g: Kid, b: seq<Br> | b != [] :: SameStart(g, HeadCut(g, b));
  }

  /** The document after a removal is well formed exactly when the removal fits. */
  lemma RemoveDocOk(d: Doc, path: seq<Part>)
    requires DocOk(d) && RemoveDoc(d, path).Ok?
    ensures DocOk(RemoveDoc(d, path).value) <==> RemoveDocFits(d, path)
  {
    hide NodeOk, Spelled, RootOk, RemoveIn, RemoveFits, Follows, Newline, PrintDoc, HasUnicodeBreak, LineBreak, Merge,
         Trivia, Shaped, Names, Without, NodeValue;
    NewlineOk(PrintDoc(d));
    RemoveInValue(d.root, true, false, 0, path, Newline(PrintDoc(d)));
    RemoveInOk(Root, d.root, path, Newline(PrintDoc(d)), None, d.end);
    var r := RemoveIn(d.root, true, false, 0, path, Newline(PrintDoc(d))).value;
    if r.below.Some? {
      EndTrivia(r.below.value, d.end);
      if d.end == [] {
        EndFollows(r.kid.node, r.below.value);
      } else {
        MergeFollows(r.kid.node, r.below.value, d.end);
      }
    }
  }

  lemma EndTrivia(a: seq<Br>, b: seq<Br>)
    requires a != [] && (forall x | x in a :: Trivia(x)) && (forall x | x in b :: Trivia(x))
    ensures forall x | x in Merge(a, b) :: Trivia(x)
  {
    hide Trivia;
    var last := a[|a| - 1];
    assert last in a;
    TriviaOf(last, last);
    if b != [] {
      assert b[0] in b;
      TriviaOf(last, b[0]);
    }
  }

  /**
   What `remove_value` promises. For every document and path where it does not refuse, the
   text it returns is the printing of a document whose value is `_without` of the old one, or
   the same document where the path names nothing; and that document is well formed exactly
   when the removal fits.
   */
  lemma RemoveValueReadsBack(d: Doc, m: CNode, path: seq<Part>)
    requires DocOk(d) && YamlMarks.Composed(PrintDoc(d), d.root.node, |KidHead(d.root)|, m)
    requires RemoveValue(PrintDoc(d), Some(m), path).Ok?
    ensures path != [] && RemoveDoc(d, path).Ok?
    ensures var e := RemoveDoc(d, path).value;
            && RemoveValue(PrintDoc(d), Some(m), path) == Ok(PrintDoc(e))
            && (if Names(d.root.node, path) then Without(DocValue(d), path) == Some(DocValue(e)) else e == d)
            && (DocOk(e) <==> RemoveDocFits(d, path))
  {
    hide DocOk, RemoveDoc, PrintDoc, Without, DocValue, RemoveDocFits, KidHead, Walk, HasUnicodeBreak;
    RemoveValueSplices(d, m, path);
    RemoveDocValue(d, path);
    RemoveDocOk(d, path);
  }
}
