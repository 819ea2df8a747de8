/**
 The hub's routing of one viewer's verb to a paired computer (core/tstd/bridge.py):
 sent, queued, remembered or refused.
 */
module Bridge {
  import opened Text
  import opened BridgeWire
  import opened BridgeLane
  import BridgeRuns
  import BridgeMachine

  datatype Status = Connecting | Connected | Unreachable | Refused | Locked | Outdated

  predicate Parked(status: Status) {
    status.Refused? || status.Locked? || status.Outdated?
  }

  /** The error frame a verb is answered with at once. */
  datatype Reply = BadRequest | MachineNotFound(session: string, mch: string) | MachineUnreachable(session: string,
          mch: string)

  const APPROVAL_VERBS := {"approve", "deny", "always_allow", "answer_question", "review_plan"}

  /** What a viewer asks: the frame's kind and bridged id, an attach's `from_seq`, and a tag of its own. */
  datatype Ask = Ask(kind: string, id: string, from: Option<int>, tag: nat)

  function VerbOf(ask: Ask, raw: string): Verb {
    Verb(ask.kind, raw, ask.tag)
  }

  /** `_ensure_lane`: the viewer's lane to that computer, made or woken unless the computer is parked. */
  function Ensured(lane: Option<LaneState>, now: real, dial: bool): LaneState {
    match lane
    case None => LaneState([], map[], [], now, None, false, dial, false, [], [], [], [])
    case Some(s) => if dial && Dormant(s) then WakeLane(s) else s
  }

  /** A lane, a control link and a reply after one verb for a known computer. */
  datatype Outcome = Outcome(lane: Option<LaneState>, control: BridgeMachine.ControlState, reply: Option<Reply>)

  function Forwarded(lane: Option<LaneState>, control: BridgeMachine.ControlState, status: Status, viewer: nat,
          now: real, ask: Ask, parts: Parts): Outcome
  {
    var raw, away := parts.raw, Some(MachineUnreachable(ask.id, parts.mch));
    if Parked(status) && ask.kind !in {"attach", "detach"} then Outcome(lane, control, away)
    else if ask.kind in APPROVAL_VERBS then
      if lane.Some? && lane.value.open then Outcome(Some(SendLane(lane.value, now, VerbOf(ask, raw))), control, None)
      else
        Outcome(Some(Ensured(lane, now, true)), BridgeMachine.SendApproval(control, viewer, ask.id),
                if control.linked && control.open then None else away)
    else
      var (s, taken) := OnLane(Ensured(lane, now, !Parked(status)), status, now, ask, raw);
      Outcome(Some(s), control, if taken then None else away)
  }

  /** A verb at its lane, which takes it or not. */
  function OnLane(s: LaneState, status: Status, now: real, ask: Ask, raw: string): (LaneState, bool) {
    if ask.kind == "attach" then (AttachLane(s, now, raw, ask.from), true)
    else if ask.kind == "detach" then (DetachLane(s, now, raw), true)
    else if s.open then (SendLane(s, now, VerbOf(ask, raw)), true)
    else if status !in {Connecting, Connected} then (s, false)
    else (EnqueueLane(s, now, VerbOf(ask, raw)), |s.pending| < QUEUE_LIMIT)
  }

  class Hub {
    var lanes: map<(nat, string), Lane>
    var machines: map<string, BridgeMachine.Machine>
    var statuses: map<string, Status>

    /** No two lanes share a socket, and every computer has a status. */
    ghost predicate Valid()
      reads this, lanes.Values
    {
      && (forall k, l | k in lanes && l in lanes && k != l :: lanes[k] != lanes[l] && lanes[k].link != lanes[l].link)
      && (forall m | m in machines :: m in statuses)
    }

    ghost function LaneAt(viewer: nat, mch: string): Option<LaneState>
      reads this, lanes.Values, set l | l in lanes.Values :: l.link
    {
      if (viewer, mch) in lanes then Some(lanes[(viewer, mch)].State()) else None
    }

    /** Every lane but one. */
    ghost function Others(key: (nat, string)): map<(nat, string), LaneState>
      reads this, lanes.Values, set l | l in lanes.Values :: l.link
    {
      map k | k in lanes && k != key :: lanes[k].State()
    }

    constructor ()
      ensures Valid() && lanes == map[] && machines == map[]
    {
      lanes, machines, statuses := map[], map[], map[];
    }

    method EnsureLane(viewer: nat, mch: string, now: real, dial: bool) returns (lane: Lane)
      requires Valid()
      modifies this`lanes, set l | l in lanes.Values :: l.link
      ensures Valid() && (viewer, mch) in lanes && lane == lanes[(viewer, mch)]
      ensures lane.State() == Ensured(old(LaneAt(viewer, mch)), now, dial)
      ensures if (viewer, mch) in old(lanes) then lanes == old(lanes)
              else lanes == old(lanes)[(viewer, mch) := lane] && fresh(lane) && fresh(lane.link)
      ensures Others((viewer, mch)) == old(Others((viewer, mch)))
    {
      var key := (viewer, mch);
      if key !in lanes {
        lane := new Lane(now, dial);
        lanes := lanes[key := lane];
      } else {
        lane := lanes[key];
        if dial && !lane.closed && !lane.link.running {
          lane.Wake();
        }
      }
    }

    method SendOn(viewer: nat, mch: string, now: real, verb: Verb)
      requires Valid() && (viewer, mch) in lanes
      modifies lanes[(viewer, mch)], lanes[(viewer, mch)].link
      ensures Valid() && lanes == old(lanes) && Others((viewer, mch)) == old(Others((viewer, mch)))
      ensures lanes[(viewer, mch)].State() == SendLane(old(lanes[(viewer, mch)].State()), now, verb)
    {
      hide SendLane;
      lanes[(viewer, mch)].Send(now, verb);
    }

    method ApproveAt(viewer: nat, mch: string, session: string) returns (sent: bool)
      requires Valid() && mch in machines
      modifies machines[mch]
      ensures Valid() && lanes == old(lanes) && machines == old(machines)
      ensures Others((viewer, mch)) == old(Others((viewer, mch))) && LaneAt(viewer, mch) == old(LaneAt(viewer, mch))
      ensures machines[mch].State() == BridgeMachine.SendApproval(old(machines[mch].State()), viewer, session)
      ensures sent == old(machines[mch].linked && machines[mch].open)
    {
      hide BridgeMachine.SendApproval;
      sent := machines[mch].Approve(viewer, session);
    }

    /** An approval: the open lane, else the open control link; never queued. */
    method ForwardApproval(viewer: nat, mch: string, ask: Ask, raw: string, now: real) returns (sent: bool)
      requires Valid() && mch in machines && ask.kind in APPROVAL_VERBS
      modifies this`lanes, lanes.Values, (set l | l in lanes.Values :: l.link), machines[mch]
      ensures Valid() && Others((viewer, mch)) == old(Others((viewer, mch)))
      ensures var lane := old(LaneAt(viewer, mch));
              if lane.Some? && lane.value.open then
                sent && LaneAt(viewer, mch) == Some(SendLane(lane.value, now, VerbOf(ask, raw)))
                && machines[mch].State() == old(machines[mch].State())
              else
                && LaneAt(viewer, mch) == Some(Ensured(lane, now, true))
                && machines[mch].State() == BridgeMachine.SendApproval(old(machines[mch].State()), viewer, ask.id)
                && sent == old(machines[mch].linked && machines[mch].open)
    {
      hide Ensured, SendLane, BridgeMachine.SendApproval;
      if (viewer, mch) in lanes && lanes[(viewer, mch)].link.open {
        SendOn(viewer, mch, now, VerbOf(ask, raw));
        return true;
      }
      var _ := EnsureLane(viewer, mch, now, true);
      sent := ApproveAt(viewer, mch, ask.id);
    }

    /** Any other verb: the viewer's lane, made or woken unless the computer is parked. */
    method ForwardOnLane(viewer: nat, mch: string, ask: Ask, raw: string, now: real) returns (taken: bool)
      requires Valid() && mch in machines
      modifies this`lanes, lanes.Values, (set l | l in lanes.Values :: l.link)
      ensures Valid() && Others((viewer, mch)) == old(Others((viewer, mch)))
      ensures var (s, t) := OnLane(Ensured(old(LaneAt(viewer, mch)), now, !Parked(statuses[mch])), statuses[mch], now,
              ask, raw);
              LaneAt(viewer, mch) == Some(s) && taken == t
    {
      hide Ensured, OnLane;
      var lane := EnsureLane(viewer, mch, now, !Parked(statuses[mch]));
      taken := Give(viewer, mch, lane, now, ask, raw);
    }

    /** The verb given to the viewer's own lane; the others stay as they are. */
    method Give(viewer: nat, mch: string, lane: Lane, now: real, ask: Ask, raw: string) returns (taken: bool)
      requires Valid() && mch in machines && (viewer, mch) in lanes && lanes[(viewer, mch)] == lane
      modifies lane, lane.link`outbox
      ensures Valid() && lanes == old(lanes)
              && (lane.State(), taken) == OnLane(old(lane.State()), statuses[mch], now, ask, raw)
      ensures Others((viewer, mch)) == old(Others((viewer, mch)))
    {
      hide OnLane;
      taken := Hand(lane, statuses[mch], now, ask, raw);
    }

    /** `forward`: never waits for the network; a reply to give at once, or none. */
    method Forward(viewer: nat, ask: Ask, now: real) returns (reply: Option<Reply>)
      requires Valid()
      modifies this`lanes, lanes.Values, (set l | l in lanes.Values :: l.link), machines.Values
      ensures Valid() && machines == old(machines)
      ensures match SplitBridged(ask.id)
              case None => reply == Some(BadRequest) && lanes == old(lanes)
              case Some(parts) =>
                && Others((viewer, parts.mch)) == old(Others((viewer, parts.mch)))
                && if parts.mch !in machines
                   then reply == Some(MachineNotFound(ask.id, parts.mch)) && lanes == old(lanes)
                   else
                     Outcome(LaneAt(viewer, parts.mch), machines[parts.mch].State(), reply)
                     == Forwarded(old(LaneAt(viewer, parts.mch)), old(machines[parts.mch].State()),
                        statuses[parts.mch], viewer, now, ask, parts)
    {
      hide SplitBridged, OnLane, Ensured, SendLane, BridgeMachine.SendApproval;
      var parts := SplitBridged(ask.id);
      if parts.None? {
        return Some(BadRequest);
      }
      var raw, mch := parts.value.raw, parts.value.mch;
      if mch !in machines {
        return Some(MachineNotFound(ask.id, mch));
      }
      if Parked(statuses[mch]) && ask.kind !in {"attach", "detach"} {
        return Some(MachineUnreachable(ask.id, mch));
      }
      var taken: bool;
      if ask.kind in APPROVAL_VERBS {
        taken := ForwardApproval(viewer, mch, ask, raw, now);
      } else {
        taken := ForwardOnLane(viewer, mch, ask, raw, now);
      }
      reply := if taken then None else Some(MachineUnreachable(ask.id, mch));
    }

    /** The verb at its lane: remembered, sent or queued. */
    method Hand(lane: Lane, status: Status, now: real, ask: Ask, raw: string) returns (taken: bool)
      modifies lane, lane.link`outbox
      ensures lane.link == old(lane.link) && (lane.State(), taken) == OnLane(old(lane.State()), status, now, ask, raw)
    {
      taken := true;
      if ask.kind == "attach" {
        lane.AttachSession(now, raw, ask.from);
      } else if ask.kind == "detach" {
        lane.DetachSession(now, raw);
      } else if lane.link.open {
        lane.Send(now, VerbOf(ask, raw));
      } else if status !in {Connecting, Connected} {
        taken := false;
      } else {
        taken := lane.Enqueue(now, VerbOf(ask, raw));
      }
    }
  }

  /**
   What routing means for the lane it touches:
   - its ledger and queue stay sound, and its attached sessions change only by attach and detach;
   - a verb answered at once went nowhere: neither accepted by the lane nor sent on the control link;
   - a verb not answered, attach and detach aside, went exactly one way: accepted by the lane once,
     or sent as an approval on the control link;
   - an approval never waits in a queue;
   - a parked computer is not dialed.
   */
  lemma ForwardedRight(lane: Option<LaneState>, control: BridgeMachine.ControlState, status: Status, viewer: nat,
          now: real, ask: Ask, parts: Parts)
    requires lane.Some? ==> BridgeRuns.Ledger(lane.value) && BridgeRuns.Queue(lane.value, now)
    ensures var r := Forwarded(lane, control, status, viewer, now, ask, parts);
            var was, now' := Ensured(lane, now, false), Ensured(r.lane, now, false);
            && BridgeRuns.Ledger(now') && BridgeRuns.Queue(now', now)
            && (ask.kind !in {"attach", "detach"} ==> now'.attached == was.attached && now'.lastSeq == was.lastSeq)
            && (r.reply.Some? ==> now'.accepted == was.accepted && now'.outbox == was.outbox && r.control == control)
            && (r.reply.None? && ask.kind !in {"attach", "detach"} ==>
                  || (now'.accepted == was.accepted + [VerbOf(ask, parts.raw)] && r.control == control)
                  || (ask.kind in APPROVAL_VERBS && now'.accepted == was.accepted
                      && r.control.routes
                         == control.routes + [BridgeMachine.Approval(viewer, ask.id), BridgeMachine.Listing]))
            && (ask.kind in APPROVAL_VERBS ==> now'.pending == was.pending)
            && (Parked(status) ==> now'.running == was.running)
  {
    hide BridgeRuns.Ledger, BridgeRuns.Queue, SendLane, AttachLane, DetachLane, EnqueueLane, OnLane,
         BridgeMachine.SendApproval;
    EnsuredSound(lane, now);
    ApprovalRoutes(control, viewer, ask.id);
    var s, t, p := Ensured(lane, now, false), Ensured(lane, now, true), Ensured(lane, now, !Parked(status));
    BridgeRuns.AskedVerb(s, now, VerbOf(ask, parts.raw));
    SentShape(s, now, VerbOf(ask, parts.raw));
    OnLaneRight(p, status, now, ask, parts.raw);
  }

  lemma EnsuredSound(lane: Option<LaneState>, now: real)
    requires lane.Some? ==> BridgeRuns.Ledger(lane.value) && BridgeRuns.Queue(lane.value, now)
    ensures var s, t := Ensured(lane, now, false), Ensured(lane, now, true);
            && BridgeRuns.Ledger(s) && BridgeRuns.Queue(s, now) && BridgeRuns.Ledger(t) && BridgeRuns.Queue(t, now)
            && t == s.(running := t.running) && (lane.Some? ==> s == lane.value)
            && Ensured(Some(s), now, false) == s && Ensured(Some(t), now, false) == t
  {
    hide BridgeRuns.Ledger;
    EmptyLedger(now);
    if lane.Some? { BridgeRuns.LedgerSame(lane.value, WakeLane(lane.value)); }
  }

  lemma SentShape(s: LaneState, now: real, verb: Verb)
    ensures var t := SendLane(s, now, verb);
            t == s.(touched := t.touched, accepted := s.accepted + [verb], outbox := t.outbox, fates := t.fates)
  {
  }

  lemma OnLaneRight(s: LaneState, status: Status, now: real, ask: Ask, raw: string)
    requires BridgeRuns.Ledger(s) && BridgeRuns.Queue(s, now)
    ensures var (t, taken) := OnLane(s, status, now, ask, raw);
            && BridgeRuns.Ledger(t) && BridgeRuns.Queue(t, now) && t.running == s.running
            && (ask.kind !in {"attach", "detach"} ==>
                  t.attached == s.attached && t.lastSeq == s.lastSeq && t.accepted == s.accepted + if taken
                    then [VerbOf(ask, raw)] else [])
            && (!taken ==> t == s)
  {
    hide BridgeRuns.Ledger, BridgeRuns.Queue, SendLane, EnqueueLane, AttachLane, DetachLane;
    var verb := VerbOf(ask, raw);
    BridgeRuns.AskedVerb(s, now, verb);
    SentShape(s, now, verb);
    EnqueuedShape(s, now, verb);
    SessionShape(s, now, raw, ask.from);
    SameQueue(s, AttachLane(s, now, raw, ask.from), now);
    SameQueue(s, DetachLane(s, now, raw), now);
    assert s.accepted + [] == s.accepted;
  }

  lemma EnqueuedShape(s: LaneState, now: real, verb: Verb)
    ensures var t := EnqueueLane(s, now, verb);
            if |s.pending| >= QUEUE_LIMIT then t == s
            else t == s.(pending := t.pending, touched := now, accepted := s.accepted + [verb], expiry := t.expiry)
  {
  }

  lemma SessionShape(s: LaneState, now: real, raw: string, from: Option<int>)
    ensures var t := AttachLane(s, now, raw, from);
            t == s.(attached := t.attached, lastSeq := t.lastSeq, touched := t.touched, outbox := t.outbox)
    ensures var t := DetachLane(s, now, raw);
            t == s.(attached := t.attached, lastSeq := t.lastSeq, touched := t.touched, outbox := t.outbox)
  {
  }

  lemma SameQueue(s: LaneState, t: LaneState, now: real)
    requires BridgeRuns.Ledger(s) && BridgeRuns.Queue(s, now)
    requires t.accepted == s.accepted && t.fates == s.fates && t.pending == s.pending && t.open == s.open
             && t.expiry == s.expiry
    ensures BridgeRuns.Ledger(t) && BridgeRuns.Queue(t, now)
  {
  }

  lemma EmptyLedger(now: real)
    ensures BridgeRuns.Ledger(Ensured(None, now, false)) && BridgeRuns.Queue(Ensured(None, now, false), now)
    ensures BridgeRuns.Ledger(Ensured(None, now, true)) && BridgeRuns.Queue(Ensured(None, now, true), now)
  {
    BridgeRuns.StartSound(now);
  }

  lemma ApprovalRoutes(control: BridgeMachine.ControlState, viewer: nat, session: string)
    ensures var c := BridgeMachine.SendApproval(control, viewer, session);
            if control.linked && control.open
            then c.routes == control.routes + [BridgeMachine.Approval(viewer, session), BridgeMachine.Listing]
            else c == control
  {
  }
}
