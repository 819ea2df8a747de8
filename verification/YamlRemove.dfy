/**
 Removing a value in the tree: the tree each deletion prints, step for step with
 `remove_value`, `_remove_first_key` and `_remove_flow`.
 */
module YamlRemove {
  import opened Text
  import opened YamlValue
  import opened YamlEmit
  import opened YamlBlock
  import opened YamlTree
  import opened YamlBuild
  import opened YamlEdit
  import opened YamlSplice

  /**
   A child after a removal below it. Lines in `above` have to move above the line the
   child starts on; `below` is the lead of a removed last child, whose lines now come
   before whatever follows.
   */
  datatype Removed = Removed(kid: Kid, above: seq<Br>, below: Option<seq<Br>>)

  /** Lead `a` up to its last line break, then the lines of `b` without their first break. */
  function Merge(a: seq<Br>, b: seq<Br>): (r: seq<Br>)
    requires a != []
    ensures r != []
  {
    var last := a[|a| - 1];
    a[..|a| - 1] + if b == [] then [Br(last.nl, 0, "")] else [Br(last.nl, b[0].pad, b[0].note)] + b[1..]
  }

  /** The lines of `b`, but its last, before the line that `lead` opens. */
  function Above(lead: seq<Br>, b: seq<Br>): (r: seq<Br>)
    requires lead != [] && |b| >= 2
    ensures r != []
  {
    var last := lead[|lead| - 1];
    Merge(lead, b[..|b| - 1]) + [Br(b[|b| - 1].nl, last.pad, "")]
  }

  /** The document's first line replaced by the lines of `b`. */
  function HeadCut(k: Kid, b: seq<Br>): Kid
    requires b != []
  {
    k.(gap := Spaces(b[0].pad) + b[0].note, drop := b[1..])
  }

  /** The lines of `b`, but its last, before the document's first line. */
  function HeadAbove(k: Kid, b: seq<Br>): Kid
    requires |b| >= 2
  {
    k.(gap := Spaces(b[0].pad) + b[0].note, drop := b[1..|b| - 1] + [Br(b[|b| - 1].nl, |k.gap|, "")])
  }

  function WithKids(k: Kid, kids: seq<Kid>): Kid
    requires k.node.Coll?
  {
    k.(node := k.node.(kids := kids))
  }

  /** Child `i` of `k`'s collection removed. */
  function RemoveAt(k: Kid, root: bool, inFlow: bool, col: nat, i: nat, nl: string): Result<Removed, EditError>
    requires k.node.Coll? && i < |k.node.kids|
  {
    var n, kids := k.node, k.node.kids;
    if |kids| == 1 then
      if root then Err(LastTopLevelKey)
      else Ok(Removed(ReplaceKid(k, inFlow, col, if n.isMap then Dict([]) else List([]), true, nl), [], None))
    else if n.flow then
      if i < |kids| - 1 then
        Ok(Removed(WithKids(k, kids[..i] + [kids[i + 1].(sep := kids[i].sep)] + kids[i + 2..]), [], None))
      else Ok(Removed(WithKids(k, kids[..i]), [], None))
    else if !n.isMap && (kids[i].drop != [] || (i == 0 && k.drop == [] && !root)) then Err(SharedLine)
    else if i > 0 && kids[i].lead != [] then
      if i < |kids| - 1 then
        var follow := kids[i + 1].(lead := Merge(kids[i].lead, kids[i + 1].lead));
        Ok(Removed(WithKids(k, kids[..i] + [follow] + kids[i + 2..]), [], None))
      else Ok(Removed(WithKids(k, kids[..i]), [], Some(kids[i].lead)))
    else
      var lead := kids[1].lead;
      var left := WithKids(k, [kids[1].(lead := [])] + kids[2..]);
      if k.drop != [] then Ok(Removed(left.(drop := Merge(k.drop, lead)), [], None))
      else if root && lead != [] then Ok(Removed(HeadCut(left, lead), [], None))
      else Ok(Removed(left, if |lead| <= 1 then [] else lead, None))
  }

  /** A removal below child `i`, seen from the child that holds the collection. */
  function Lift(k: Kid, root: bool, i: nat, r: Removed): Removed
    requires k.node.Coll? && i < |k.node.kids|
  {
    var kids := k.node.kids;
    var child := if |r.above| >= 2 && i > 0 && r.kid.lead != [] then r.kid.(lead := Above(r.kid.lead, r.above))
      else r.kid;
    var up := if i == 0 then r.above else [];
    var last := i + 1 == |kids|;
    var kids' := if r.below.Some? && r.below.value != [] && !last
                 then kids[i := child][i + 1 := kids[i + 1].(lead := Merge(r.below.value, kids[i + 1].lead))]
                 else kids[i := child];
    var below := if last then r.below else None;
    var left := WithKids(k, kids');
    if |up| < 2 then Removed(left, [], below)
    else if k.drop != [] then Removed(left.(drop := Above(k.drop, up)), [], below)
    else if root then Removed(HeadAbove(left, up), [], below)
    else Removed(left, up, below)
  }

  /** `remove_value` on the tree, from the child the path has reached; unchanged when it names nothing. */
  function RemoveIn(k: Kid, root: bool, inFlow: bool, col: nat, path: seq<Part>, nl: string): Result<Removed, EditError>
    requires path != []
    decreases |path|
  {
    match StepKid(k.node, path[0])
    case Err(e) => Err(e)
    case Ok(None) => Ok(Removed(k, [], None))
    case Ok(Some(i)) =>
      if |path| == 1 then RemoveAt(k, root, inFlow, col, i, nl)
      else
        match RemoveIn(k.node.kids[i], false, k.node.flow, k.node.col, path[1..], nl)
        case Err(e) => Err(e)
        case Ok(r) => Ok(Lift(k, root, i, r))
  }

  function EndAfter(below: Option<seq<Br>>, end: seq<Br>): seq<Br> {
    if below.Some? && below.value != [] then Merge(below.value, end) else end
  }

  function RemoveDoc(d: Doc, path: seq<Part>): Result<Doc, EditError> {
    if path == [] then Err(NeedsKey)
    else if HasUnicodeBreak(PrintDoc(d)) then Err(UnicodeBreak)
    else
      match RemoveIn(d.root, true, false, 0, path, Newline(PrintDoc(d)))
      case Err(e) => Err(e)
      case Ok(r) => Ok(Doc(r.kid, EndAfter(r.below, d.end)))
  }

  /** The path names something. */
  predicate Names(n: Node, path: seq<Part>)
    decreases |path|
  {
    path == [] || (StepKid(n, path[0]).Ok? && StepKid(n, path[0]).value.Some?
                   && Names(n.kids[StepKid(n, path[0]).value.value].node, path[1..]))
  }

  // ------------------------------------------------------------------ values

  lemma DropChild(n: Node, i: nat, kids: seq<Kid>)
    requires n.Coll? && i < |n.kids| && |kids| == |n.kids| - 1
    requires forall j | 0 <= j < |kids| ::
               var was := n.kids[if j < i then j else j + 1];
               kids[j].mark == was.mark && kids[j].node == was.node
    ensures NodeValue(n.(kids := kids)) == Drop(NodeValue(n), i)
    ensures Spelled(n) ==> Spelled(n.(kids := kids))
  {
    hide KeySpelled;
    if n.isMap {
      var a, b := NodeValue(n.(kids := kids)).pairs, NodeValue(n).pairs;
      assert a == b[..i] + b[i + 1..];
    } else {
      var a, b := NodeValue(n.(kids := kids)).items, NodeValue(n).items;
      assert a == b[..i] + b[i + 1..];
    }
  }

  lemma RemoveAtValue(k: Kid, root: bool, inFlow: bool, col: nat, i: nat, nl: string)
    requires NodeOk(k.node) && k.node.Coll? && i < |k.node.kids| && RemoveAt(k, root, inFlow, col, i, nl).Ok?
    ensures var e := RemoveAt(k, root, inFlow, col, i, nl).value.kid;
            NodeValue(e.node) == Drop(NodeValue(k.node), i) && (Spelled(k.node) ==> Spelled(e.node))
  {
    hide *;
    var n, kids := k.node, k.node.kids;
    if |kids| == 1 {
      OnlyRemoved(k, root, inFlow, col, nl);
      ReplaceValue(k, inFlow, col, if n.isMap then Dict([]) else List([]), true, nl);
      OneDropped(n);
    } else {
      LeadsLater(n);
      KidsLeft(k, root, inFlow, col, i, nl);
      DropChild(n, i, RemoveAt(k, root, inFlow, col, i, nl).value.kid.node.kids);
    }
  }

  lemma OnlyRemoved(k: Kid, root: bool, inFlow: bool, col: nat, nl: string)
    requires k.node.Coll? && |k.node.kids| == 1 && RemoveAt(k, root, inFlow, col, 0, nl).Ok?
    ensures RemoveAt(k, root, inFlow, col, 0, nl).value.kid
            == ReplaceKid(k, inFlow, col, if k.node.isMap then Dict([]) else List([]), true, nl)
  {
    hide ReplaceKid;
  }

  /** The children that stay, their values untouched. */
  lemma KidsLeft(k: Kid, root: bool, inFlow: bool, col: nat, i: nat, nl: string)
    requires k.node.Coll? && i < |k.node.kids| && |k.node.kids| >= 2 && RemoveAt(k, root, inFlow, col, i, nl).Ok?
    requires !k.node.flow ==> forall j | 1 <= j < |k.node.kids| :: k.node.kids[j].lead != []
    ensures var n, e := k.node, RemoveAt(k, root, inFlow, col, i, nl).value.kid.node;
            && e.Coll? && e == n.(kids := e.kids) && |e.kids| == |n.kids| - 1
            && forall j | 0 <= j < |e.kids| ::
                 var was := n.kids[if j < i then j else j + 1];
                 e.kids[j].mark == was.mark && e.kids[j].node == was.node
  {
    hide ReplaceKid, Merge;
    var kids := k.node.kids;
    if i + 1 < |kids| {
      LeftAt(kids, i, kids[i + 1].(sep := kids[i].sep));
      if kids[i].lead != [] {
        LeftAt(kids, i, kids[i + 1].(lead := Merge(kids[i].lead, kids[i + 1].lead)));
      }
      LeftAt(kids, i, kids[i + 1].(lead := []));
    }
  }

  /** Child `i` gone, and the one after it, changed, in its place. */
  lemma LeftAt(kids: seq<Kid>, i: nat, follow: Kid)
    requires i + 1 < |kids| && follow.node == kids[i + 1].node && follow.mark == kids[i + 1].mark
    ensures var left := kids[..i] + [follow] + kids[i + 2..];
            && |left| == |kids| - 1
            && forall j | 0 <= j < |left| ::
                 var was := kids[if j < i then j else j + 1];
                 left[j].mark == was.mark && left[j].node == was.node
  {
    if i == 0 {
      assert kids[..0] + [follow] + kids[2..] == [follow] + kids[2..];
    }
  }

  lemma OneDropped(n: Node)
    requires n.Coll? && |n.kids| == 1
    ensures Drop(NodeValue(n), 0) == if n.isMap then Dict([]) else List([])
  {
  }

  /** In a block collection every child but the first has a lead. */
  lemma LeadsLater(n: Node)
    requires n.Coll? && NodeOk(n)
    ensures !n.flow ==> forall i | 1 <= i < |n.kids| :: n.kids[i].lead != []
  {
    hide Placed, ReadScalar, Follows, FlowKidOk;
    if !n.flow {
      forall i | 1 <= i < |n.kids| ensures n.kids[i].lead != [] {
        assert BlockKidOk(n.kids[i], n.col, false, n.isMap);
      }
    }
  }

  /** Lifting puts the child in its place; of the others it moves no more than the lines above them. */
  lemma LiftKids(k: Kid, root: bool, i: nat, r: Removed)
    requires k.node.Coll? && i < |k.node.kids|
    ensures var g, kids := Lift(k, root, i, r).kid.node, k.node.kids[i := r.kid];
            && g.Coll? && g.isMap == k.node.isMap && |g.kids| == |kids|
            && forall j | 0 <= j < |kids| :: g.kids[j].node == kids[j].node && g.kids[j].mark == kids[j].mark
  {
    hide Merge, Above;
  }

  lemma LiftValue(k: Kid, root: bool, i: nat, r: Removed)
    requires k.node.Coll? && i < |k.node.kids| && r.kid.mark == k.node.kids[i].mark
    ensures var n, g := k.node, Lift(k, root, i, r).kid.node;
            && NodeValue(g) == NodeValue(n.(kids := n.kids[i := r.kid]))
            && (Spelled(n) ==> Spelled(n.kids[i].node) && (Spelled(r.kid.node) ==> Spelled(g)))
  {
    hide Lift;
    LiftKids(k, root, i, r);
    var a := Lift(k, root, i, r).kid.node;
    var b := k.node.(kids := k.node.kids[i := r.kid]);
    assert NodeValue(a) == NodeValue(b) && (Spelled(a) <==> Spelled(b)) by { hide KeySpelled; }
    if Spelled(k.node) { SetChildSpelled(k.node, i, r.kid); }
  }

  /** A removal keeps where its child starts. */
  lemma RemoveStart(k: Kid, root: bool, inFlow: bool, col: nat, path: seq<Part>, nl: string)
    requires path != [] && RemoveIn(k, root, inFlow, col, path, nl).Ok?
    ensures SameStart(k, RemoveIn(k, root, inFlow, col, path, nl).value.kid)
  {
    hide ReplaceKid, StepKid, Merge, Above;
    var step := StepKid(k.node, path[0]).value;
    if step.Some? && |path| == 1 {
      ReplaceStart(k, inFlow, col, if k.node.isMap then Dict([]) else List([]), true, nl);
    }
  }

  /** Where the path names a value, the edited tree's value is `_without` of the old one. */
  lemma {:induction false} RemoveInValue(k: Kid, root: bool, inFlow: bool, col: nat, path: seq<Part>, nl: string)
    requires NodeOk(k.node) && path != [] && RemoveIn(k, root, inFlow, col, path, nl).Ok?
    ensures var v := NodeValue(RemoveIn(k, root, inFlow, col, path, nl).value.kid.node);
            if Names(k.node, path) then Without(NodeValue(k.node), path) == Some(v)
            else RemoveIn(k, root, inFlow, col, path, nl).value == Removed(k, [], None)
    ensures Spelled(k.node) ==> Spelled(RemoveIn(k, root, inFlow, col, path, nl).value.kid.node)
    decreases |path|
  {
    hide NodeOk, NodeValue, StepKid, RemoveAt, Merge, Above, Put, Child, Spelled;
    var step := StepKid(k.node, path[0]).value;
    if step.Some? {
      var n, i := k.node, step.value;
      SetChildValue(n, i, n.kids[i], path[0]);
      if |path| == 1 {
        assert path[1..] == [] && Names(n.kids[i].node, path[1..]);
        assert Names(k.node, path);
        RemoveAtValue(k, root, inFlow, col, i, nl);
      } else {
        ChildrenOk(n, i);
        var r := RemoveIn(n.kids[i], false, n.flow, n.col, path[1..], nl).value;
        RemoveInValue(n.kids[i], false, n.flow, n.col, path[1..], nl);
        RemoveStart(n.kids[i], false, n.flow, n.col, path[1..], nl);
        LiftValue(k, root, i, r);
        if Names(n.kids[i].node, path[1..]) {
          SetChildValue(k.node, i, r.kid, path[0]);
        } else {
          assert n.kids[i := n.kids[i]] == n.kids;
        }
      }
    }
  }

  /** The document after a removal reads as `_without`; unchanged when the path names nothing. */
  lemma RemoveDocValue(d: Doc, path: seq<Part>)
    requires DocOk(d) && RemoveDoc(d, path).Ok?
    ensures if Names(d.root.node, path) then Without(DocValue(d), path) == Some(DocValue(RemoveDoc(d, path).value))
            else RemoveDoc(d, path).value == d
  {
    hide NodeOk, RootOk, RemoveIn, Names, Without, NodeValue, PrintDoc, Spelled;
    RemoveInValue(d.root, true, false, 0, path, Newline(PrintDoc(d)));
  }
}
