/**
 One paired computer's control link (core/tstd/bridge_machine.py): who each answer on it
 is for.
 */
module BridgeMachine {
  import opened Text

  /** What was sent on a control link: a `list_sessions`, or an approval for a viewer. */
  datatype Route = Listing | Approval(viewer: nat, session: string)

  /** An answer: rows, an error naming a session or none, or something else. */
  datatype Answer = Rows | Refusal(session: Option<string>, readable: bool) | OtherAnswer

  /** An error handed to a viewer, with the session id it carries. */
  datatype Delivery = Delivery(viewer: nat, session: string)

  datatype ControlState = ControlState(linked: bool, open: bool, outbox: seq<Route>, routes: seq<Route>,
          delivered: seq<Delivery>)

  predicate Asked(routes: seq<Route>) {
    exists r | r in routes :: r.Listing?
  }

  /** `refresh`: ask for the computer's rows, one request in flight at a time unless forced. */
  function Refresh(s: ControlState, force: bool): ControlState {
    if !s.linked || !s.open then s
    else if !force && Asked(s.routes) then s
    else s.(outbox := s.outbox + [Listing], routes := s.routes + [Listing])
  }

  /** `send_approval`: the approval, then always a refresh behind it. */
  function SendApproval(s: ControlState, viewer: nat, session: string): ControlState {
    if !s.linked || !s.open then s
    else
      var sent := Approval(viewer, session);
      Refresh(s.(outbox := s.outbox + [sent], routes := s.routes + [sent]), true)
  }

  /** The routes past the first list request; all of them are gone when there is none. */
  function PastListing(routes: seq<Route>): seq<Route> {
    if routes == [] then [] else if routes[0].Listing? then routes[1..] else PastListing(routes[1..])
  }

  /** `_on_frame`. */
  function Receive(s: ControlState, answer: Answer): ControlState {
    match answer
    case Rows => s.(routes := PastListing(s.routes))
    case Refusal(session, readable) =>
      if s.routes == [] then s
      else
        var head, rest := s.routes[0], s.(routes := s.routes[1..]);
        if head.Listing? || !readable then rest
        else rest.(delivered := s.delivered
             + [Delivery(head.viewer, if session.Some? then session.value else head.session)])
    case OtherAnswer => s
  }

  /** `_serve`'s first step and `_on_open`: a fresh socket expects nothing but the first rows. */
  function Opened(s: ControlState): ControlState {
    Refresh(s.(open := true, outbox := [], routes := []), true)
  }

  function StopControl(s: ControlState): ControlState {
    s.(linked := false, open := false, routes := [])
  }

  class Machine {
    var linked: bool
    var open: bool
    var outbox: seq<Route>
    var routes: seq<Route>
    ghost var delivered: seq<Delivery>

    ghost function State(): ControlState
      reads this
    {
      ControlState(linked, open, outbox, routes, delivered)
    }

    constructor ()
      ensures State() == ControlState(false, false, [], [], [])
    {
      linked, open, outbox, routes, delivered := false, false, [], [], [];
    }

    method StartControl()
      modifies this`linked, this`open, this`outbox
      ensures State() == if old(linked) then old(State())
              else old(State()).(linked := true, open := false, outbox := [])
    {
      if linked {
        return;
      }
      linked, open, outbox := true, false, [];
    }

    /** `link.send` on the open socket. */
    method Send(what: Route)
      requires linked && open
      modifies this`outbox
      ensures outbox == old(outbox) + [what]
    {
      outbox := outbox + [what];
    }

    method RefreshRows(force: bool)
      modifies this`outbox, this`routes
      ensures State() == Refresh(old(State()), force)
    {
      if !linked || !open {
        return;
      }
      if !force && Asked(routes) {
        return;
      }
      Send(Listing);
      routes := routes + [Listing];
    }

    method Approve(viewer: nat, session: string) returns (sent: bool)
      modifies this`outbox, this`routes
      ensures sent == (linked && open) && State() == SendApproval(old(State()), viewer, session)
    {
      if !linked || !open {
        return false;
      }
      Send(Approval(viewer, session));
      routes := routes + [Approval(viewer, session)];
      RefreshRows(true);
      sent := true;
    }

    method Open()
      requires linked
      modifies this`open, this`outbox, this`routes
      ensures State() == Opened(old(State()))
    {
      open, outbox, routes := true, [], [];
      RefreshRows(true);
    }

    method Handle(answer: Answer)
      modifies this`routes, this`delivered
      ensures State() == Receive(old(State()), answer)
    {
      if answer.Rows? {
        while routes != []
          invariant PastListing(routes) == PastListing(old(routes)) && unchanged(this`delivered)
          decreases |routes|
        {
          var head := routes[0];
          routes := routes[1..];
          if head.Listing? {
            return;
          }
        }
        return;
      }
      if !answer.Refusal? || routes == [] {
        return;
      }
      var head := routes[0];
      routes := routes[1..];
      if head.Listing? || !answer.readable {
        return;
      }
      delivered := delivered
        + [Delivery(head.viewer, if answer.session.Some? then answer.session.value else head.session)];
    }

    method Stop()
      modifies this`linked, this`open, this`routes
      ensures State() == StopControl(old(State()))
    {
      linked, open, routes := false, false, [];
    }
  }

  // ------------------------------------------------------------ whole runs

  /**
   The hub's side, what it sent on the present socket that the other computer has not passed
   yet, and the errors the other computer answered approvals with, each for the viewer that
   sent that approval.
   */
  datatype Net = Net(control: ControlState, unanswered: seq<Route>, owed: seq<Delivery>)

  /**
   What may happen. The other computer answers in send order: a list by its rows, an approval
   by nothing or by one error, so an answer to request `at` passes the approvals before it.
   `Refuses` is a list answered by an error instead.
   */
  datatype Step =
    | Starts
    | Opens
    | Drops
    | Stops
    | Refreshes(force: bool)
    | Approves(viewer: nat, session: string)
    | Lists(at: nat)
    | Denies(at: nat, about: Option<string>, readable: bool)
    | Refuses(at: nat, about: Option<string>, readable: bool)
    | Other

  predicate PassesApprovals(n: Net, at: nat) {
    at < |n.unanswered| && forall i | 0 <= i < at :: n.unanswered[i].Approval?
  }

  predicate Enabled(n: Net, step: Step) {
    match step
    case Opens => n.control.linked && !n.control.open
    case Drops => n.control.open
    case Lists(at) => n.control.open && PassesApprovals(n, at) && n.unanswered[at].Listing?
    case Denies(at, _, _) => n.control.open && PassesApprovals(n, at) && n.unanswered[at].Approval?
    case Refuses(at, _, _) => n.control.open && PassesApprovals(n, at) && n.unanswered[at].Listing?
    case _ => true
  }

  /** What a step of the hub's own added to the socket. */
  function Sent(before: ControlState, after: ControlState): seq<Route>
    requires |before.outbox| <= |after.outbox|
  {
    after.outbox[|before.outbox|..]
  }

  function Do(n: Net, step: Step): Net
    requires Enabled(n, step)
  {
    var c := n.control;
    match step
    case Starts => n.(control := if c.linked then c else c.(linked := true, open := false, outbox := []))
    case Opens => var c' := Opened(c); Net(c', c'.outbox, n.owed)
    case Drops => n.(control := c.(open := false), unanswered := [])
    case Stops => n.(control := StopControl(c), unanswered := [])
    case Refreshes(force) => var c' := Refresh(c, force); Net(c', n.unanswered + Sent(c, c'), n.owed)
    case Approves(viewer, session) =>
      var c' := SendApproval(c, viewer, session); Net(c', n.unanswered + Sent(c, c'), n.owed)
    case Lists(at) => n.(control := Receive(c, Rows), unanswered := n.unanswered[at + 1..])
    case Denies(at, session, readable) =>
      var a := n.unanswered[at];
      Net(Receive(c, Refusal(session, readable)), n.unanswered[at + 1..],
          if readable then n.owed + [Delivery(a.viewer, if session.Some? then session.value else a.session)]
          else n.owed)
    case Refuses(at, session, readable) =>
      n.(control := Receive(c, Refusal(session, readable)), unanswered := n.unanswered[at + 1..])
    case Other => n.(control := Receive(c, OtherAnswer))
  }

  /** Every approval has a list request right behind it. */
  predicate Paired(sent: seq<Route>) {
    forall i | 0 <= i < |sent| && sent[i].Approval? :: i + 1 < |sent| && sent[i + 1].Listing?
  }

  /** The routes are what is still unanswered, and every error so far reached the viewer it was for. */
  predicate Mirrors(n: Net) {
    && (n.control.open ==> n.control.linked && n.control.routes == n.unanswered)
    && Paired(n.unanswered)
    && n.control.delivered == n.owed
  }

  lemma PairedConcat(a: seq<Route>, b: seq<Route>)
    requires Paired(a) && Paired(b)
    ensures Paired(a + b)
  {
    forall i | 0 <= i < |a + b| && (a + b)[i].Approval?
      ensures i + 1 < |a + b| && (a + b)[i + 1].Listing?
    {
      if i < |a| {
        assert a[i].Approval?;
      } else {
        assert b[i - |a|].Approval?;
      }
    }
  }

  /**
   Every step keeps the mirror, but one: a list request answered by an error while an approval
   answered by nothing still stands before it. That approval's viewer gets the error.
   */
  lemma StepMirrors(n: Net, step: Step)
    requires Mirrors(n) && Enabled(n, step)
    ensures !step.Refuses? || step.at == 0 ==> Mirrors(Do(n, step))
    ensures step.Refuses? && step.at > 0 ==> !Mirrors(Do(n, step))
    ensures step.Refuses? && step.at > 0 && step.readable ==>
      var a := n.unanswered[0];
      Do(n, step).control.delivered
        == n.owed + [Delivery(a.viewer, if step.about.Some? then step.about.value else a.session)]
  {
    var waiting := n.unanswered;
    if step.Lists? || step.Denies? || step.Refuses? {
      // As approvals come with lists behind them, an answer passes at most one approval.
      assert step.at <= 1 by {
        assert n.unanswered[0].Approval? ==> 1 < |n.unanswered| && n.unanswered[1].Listing?;
      }
      var k := step.at + 1;
      assert Paired(waiting[k..]) by {
        forall i | 0 <= i < |waiting[k..]| && waiting[k..][i].Approval?
          ensures i + 1 < |waiting[k..]| && waiting[k..][i + 1].Listing?
        {
          assert waiting[k + i].Approval?;
        }
      }
      if step.at == 1 {
        assert waiting[0].Approval? && waiting[1..][0] == waiting[1];
        assert PastListing(waiting) == PastListing(waiting[1..]) && waiting[1..][1..] == waiting[2..];
      }
    } else if step.Refreshes? || step.Approves? || step.Opens? {
      var sent := if step.Opens? then [] else n.unanswered;
      PairedConcat(sent, [Listing]);
      if step.Approves? {
        PairedConcat(sent, [Approval(step.viewer, step.session), Listing]);
      }
    }
  }

  predicate Runs(n: Net, steps: seq<Step>)
    decreases |steps|
  {
    steps == [] || (Enabled(n, steps[0]) && Runs(Do(n, steps[0]), steps[1..]))
  }

  function After(n: Net, steps: seq<Step>): Net
    requires Runs(n, steps)
    decreases |steps|
  {
    if steps == [] then n else After(Do(n, steps[0]), steps[1..])
  }

  /** A hub that never linked mirrors. */
  lemma StartMirrors()
    ensures Mirrors(Net(ControlState(false, false, [], [], []), [], []))
  {
  }

  /** The run mirrors before each of its steps and at its end. */
  predicate MirrorsThroughout(n: Net, steps: seq<Step>)
    requires Runs(n, steps)
    decreases |steps|
  {
    Mirrors(n) && (steps == [] || MirrorsThroughout(Do(n, steps[0]), steps[1..]))
  }

  /**
   Over any run the routes are what is unanswered and every error reached its sender, at every moment of it,
   exactly when no list is refused behind an approval answered by nothing.
   */
  lemma {:induction false} RunMirrors(n: Net, steps: seq<Step>)
    requires Mirrors(n) && Runs(n, steps)
    ensures MirrorsThroughout(n, steps) <==> forall step | step in steps :: !step.Refuses? || step.at == 0
    ensures MirrorsThroughout(n, steps) ==> Mirrors(After(n, steps))
    decreases |steps|
  {
    hide Enabled, Do, Mirrors;
    if steps == [] {
    } else {
      StepMirrors(n, steps[0]);
      assert forall step | step in steps :: step == steps[0] || step in steps[1..];
      assert steps[0] in steps && forall step | step in steps[1..] :: step in steps;
      if !steps[0].Refuses? || steps[0].at == 0 {
        RunMirrors(Do(n, steps[0]), steps[1..]);
      }
    }
  }
}
