/**
 A lane over any run of what the viewer asks, what the clock does and what an adversarial
 network does to its sockets: what becomes of verbs, and what the viewer sees of a session.
 */
module BridgeRuns {
  import opened Text
  import opened BridgeLane

  /**
   The lane, the sessions the other computer streams on the present socket (each by the next
   seq it will send), and the socket being replaced by a re-pairing, until it has stopped.
   The other computer's log holds every seq; what is still on the wire when a socket goes is lost.
   */
  datatype Net = Net(lane: LaneState, remote: map<string, int>, relinking: bool,
                     oldOutbox: seq<Frame>, oldRemote: map<string, int>, now: real)

  datatype Step =
    | Wait(seconds: real)
    | AsksAttach(raw: string, from: Option<int>)
    | AsksDetach(raw: string)
    | AsksVerb(verb: Verb)
    | Timer
    | Opens
    | Drops
    | Receives
    | Streams(raw: string)
    | Wakes
    | Relinks
    | OldReceives
    | OldStreams(raw: string)
    | OldOpens
    | RelinkDone
    | Stops

  predicate Enabled(n: Net, step: Step) {
    match step
    case Wait(seconds) => seconds >= 0.0
    case Timer => n.lane.expiry.Some? && n.now >= n.lane.expiry.value
    case Opens => n.lane.running && !n.lane.open
    case Drops => n.lane.open
    case Receives => n.lane.open && n.lane.outbox != []
    case Streams(raw) => n.lane.open && raw in n.remote
    case Relinks => !n.relinking && !n.lane.closed
    case OldReceives => n.relinking && n.oldOutbox != []
    case OldStreams(raw) => n.relinking && raw in n.oldRemote
    case OldOpens => n.relinking
    case RelinkDone => n.relinking
    case AsksVerb(_) => !n.lane.closed
    case _ => true
  }

  /** The other computer reads one frame: an attach starts that session's events at its seq. */
  function Read(frame: Frame, remote: map<string, int>): map<string, int> {
    match frame
    case Attach(raw, from) => if from.Some? && from.value < 1 then remote else remote[raw := Asked(from)]
    case Detach(raw) => remote - {raw}
    case Sent(_) => remote
  }

  /** What a step does; one that cannot happen does nothing. */
  function Do(n: Net, step: Step): Net {
    if Enabled(n, step) then Done(n, step) else n
  }

  function Done(n: Net, step: Step): Net
    requires Enabled(n, step)
  {
    var s := n.lane;
    match step
    case Wait(seconds) => n.(now := n.now + seconds)
    case AsksAttach(raw, from) => n.(lane := AttachLane(s, n.now, raw, from))
    case AsksDetach(raw) => n.(lane := DetachLane(s, n.now, raw))
    case AsksVerb(verb) => n.(lane := if s.open then SendLane(s, n.now, verb) else EnqueueLane(s, n.now, verb))
    case Timer => n.(lane := ExpireLane(s, n.now))
    case Opens => n.(lane := OpenLane(s, n.now), remote := map[])
    case Drops => n.(lane := DropLink(s), remote := map[])
    case Receives => n.(lane := s.(outbox := s.outbox[1..]), remote := Read(s.outbox[0], n.remote))
    case Streams(raw) =>
      n.(lane := FrameLane(s, n.now, raw, n.remote[raw]), remote := n.remote[raw := n.remote[raw] + 1])
    case Wakes => n.(lane := WakeLane(s))
    case Relinks =>
      if s.open then n.(lane := RelinkLane(s), relinking := true, oldOutbox := s.outbox, oldRemote := n.remote,
      remote := map[])
      else n.(lane := RelinkLane(s), relinking := true, oldOutbox := [], oldRemote := map[], remote := map[])
    case OldReceives => n.(oldOutbox := n.oldOutbox[1..], oldRemote := Read(n.oldOutbox[0], n.oldRemote))
    case OldStreams(raw) =>
      n.(lane := FrameLane(s, n.now, raw, n.oldRemote[raw]), oldRemote := n.oldRemote[raw := n.oldRemote[raw] + 1])
    case OldOpens => n.(lane := OnOpen(s, n.now))
    case RelinkDone => n.(lane := WakeLane(s), relinking := false, oldOutbox := [], oldRemote := map[])
    case Stops => n.(lane := StopLane(s))
  }

  // ------------------------------------------------------------------ verbs

  function FateVerbs(fates: seq<Fate>): (verbs: seq<Verb>)
    ensures |verbs| == |fates| && forall i | 0 <= i < |fates| :: verbs[i] == fates[i].verb
  {
    seq(|fates|, i requires 0 <= i < |fates| => fates[i].verb)
  }

  function WaitingVerbs(pending: seq<Waiting>): (verbs: seq<Verb>)
    ensures |verbs| == |pending| && forall i | 0 <= i < |pending| :: verbs[i] == pending[i].verb
  {
    seq(|pending|, i requires 0 <= i < |pending| => pending[i].verb)
  }

  /** Every accepted verb has had exactly one fate, or still waits, in the order they were accepted. */
  predicate Ledger(s: LaneState) {
    s.accepted == FateVerbs(s.fates) + WaitingVerbs(s.pending)
  }

  /** The verbs that wait, in order of arrival. */
  predicate InOrder(pending: seq<Waiting>) {
    forall i, j | 0 <= i < j < |pending| :: pending[i].since <= pending[j].since
  }

  /** The queue: bounded, in order of arrival, empty while the lane is open, timed while it is not empty. */
  predicate Queue(s: LaneState, now: real) {
    && |s.pending| <= QUEUE_LIMIT
    && (s.open ==> s.pending == [])
    && InOrder(s.pending)
    && (forall i | 0 <= i < |s.pending| :: s.pending[i].since <= now)
    && (s.pending != [] <==> s.expiry.Some?)
    && (s.pending != [] ==> s.expiry.value <= s.pending[0].since + QUEUE_SECONDS + SHORTEST_WAIT)
  }

  predicate Sound(n: Net) {
    Ledger(n.lane) && Queue(n.lane, n.now)
  }

  /** Only what follows from its first verb's fate changes. */
  lemma FateKeepsLedger(s: LaneState, fate: Fate)
    requires Ledger(s) && s.pending != [] && fate.verb == s.pending[0].verb
    ensures Ledger(s.(pending := s.pending[1..], fates := s.fates + [fate]))
  {
    hide FateVerbs, WaitingVerbs;
    assert FateVerbs(s.fates + [fate]) == FateVerbs(s.fates) + [fate.verb];
    assert WaitingVerbs(s.pending) == [s.pending[0].verb] + WaitingVerbs(s.pending[1..]);
    VerbMoves(s.accepted, FateVerbs(s.fates), fate.verb, WaitingVerbs(s.pending[1..]));
  }

  lemma VerbMoves(all: seq<Verb>, done: seq<Verb>, verb: Verb, rest: seq<Verb>)
    requires all == done + ([verb] + rest)
    ensures all == (done + [verb]) + rest
  {
  }

  lemma {:induction false} FailOldSound(s: LaneState, now: real)
    requires Ledger(s) && InOrder(s.pending)
    ensures var t := FailOld(s, now);
            && Ledger(t) && t == s.(pending := t.pending, fates := t.fates)
            && |t.pending| <= |s.pending| && t.pending == s.pending[|s.pending| - |t.pending|..]
            && forall w | w in t.pending :: now - w.since < QUEUE_SECONDS
    decreases |s.pending|
  {
    hide Ledger;
    if s.pending == [] {
    } else if now - s.pending[0].since >= QUEUE_SECONDS {
      FateKeepsLedger(s, Failed(s.pending[0].verb));
      var t := s.(pending := s.pending[1..], fates := s.fates + [Failed(s.pending[0].verb)]);
      assert InOrder(s.pending[1..]);
      FailOldSound(t, now);
      var k := |FailOld(t, now).pending|;
      assert t.pending[|t.pending| - k..] == s.pending[|s.pending| - k..];
    } else {
      OldestFirst(s.pending, now);
    }
  }

  lemma OldestFirst(pending: seq<Waiting>, now: real)
    requires pending != [] && InOrder(pending)
    ensures now - pending[0].since < QUEUE_SECONDS ==> forall w | w in pending :: now - w.since < QUEUE_SECONDS
  {
    forall w | w in pending ensures pending[0].since <= w.since {
      var i :| 0 <= i < |pending| && pending[i] == w;
      assert i > 0 ==> pending[0].since <= pending[i].since;
    }
  }

  lemma {:induction false} FailAllSound(s: LaneState)
    requires Ledger(s)
    ensures Ledger(FailAll(s)) && FailAll(s).pending == [] && FailAll(s) == s.(pending := [], fates := FailAll(s).fates)
    decreases |s.pending|
  {
    hide Ledger;
    if s.pending == [] {
    } else {
      FateKeepsLedger(s, Failed(s.pending[0].verb));
      FailAllSound(s.(pending := s.pending[1..], fates := s.fates + [Failed(s.pending[0].verb)]));
    }
  }

  lemma {:induction false} ReattachShape(s: LaneState, attached: seq<Attached>)
    ensures Reattach(s, attached) == s.(outbox := Reattach(s, attached).outbox)
    decreases |attached|
  {
    if attached == [] {
    } else {
      ReattachShape(SendFrame(s, Attach(attached[0].raw, Some(NextSeq(s, attached[0])))), attached[1..]);
    }
  }

  /** On an open link the backlog is handed over whole; on a closed one nothing becomes of it. */
  lemma {:induction false} DrainSound(s: LaneState)
    requires Ledger(s)
    ensures var t := Drain(s);
            && t == s.(pending := [], outbox := t.outbox, fates := t.fates)
            && (if s.open then Ledger(t) else t.fates == s.fates)
    decreases |s.pending|
  {
    hide Ledger;
    if s.pending == [] {
    } else {
      var t := SendVerb(s.(pending := s.pending[1..]), s.pending[0].verb);
      if s.open {
        FateKeepsLedger(s, Handed(s.pending[0].verb));
        LedgerSame(s.(pending := s.pending[1..], fates := s.fates + [Handed(s.pending[0].verb)]), t);
        DrainSound(t);
      } else {
        DrainLost(t);
      }
    }
  }

  lemma {:induction false} DrainLost(s: LaneState)
    requires !s.open
    ensures Drain(s) == s.(pending := [])
    decreases |s.pending|
  {
    if s.pending == [] {
    } else {
      DrainLost(s.(pending := s.pending[1..]));
    }
  }

  lemma LedgerSame(s: LaneState, t: LaneState)
    requires Ledger(s) && t.accepted == s.accepted && t.fates == s.fates && t.pending == s.pending
    ensures Ledger(t)
  {
  }

  lemma OpenedSound(s: LaneState, now: real)
    requires Ledger(s)
    ensures var t := OnOpen(s, now);
            && t.pending == [] && t.open == s.open && t.expiry == None && t.accepted == s.accepted
            && (Ledger(t) <==> s.open || s.pending == [])
  {
    ReattachShape(s, s.attached);
    var r := Reattach(s, s.attached);
    LedgerSame(s, r);
    DrainSound(r);
    var t := OnOpen(s, now);
    if s.open {
      LedgerSame(Drain(r), t);
    } else {
      assert Ledger(t) <==> s.pending == [] by {
        if Ledger(t) {
          assert |s.accepted| == |s.fates| + |s.pending| && |t.accepted| == |t.fates| + 0;
        } else {
          assert s.pending == [] ==> WaitingVerbs(s.pending) == WaitingVerbs(t.pending);
        }
      }
    }
  }

  lemma AskedVerb(s: LaneState, now: real, verb: Verb)
    requires Ledger(s) && Queue(s, now)
    ensures s.open ==> Ledger(SendLane(s, now, verb)) && Queue(SendLane(s, now, verb), now)
    ensures !s.open ==> Ledger(EnqueueLane(s, now, verb)) && Queue(EnqueueLane(s, now, verb), now)
  {
    hide WaitingVerbs;
    if s.open {
      var t := SendLane(s, now, verb);
      assert FateVerbs(t.fates) == FateVerbs(s.fates) + [verb];
      assert s.accepted == FateVerbs(s.fates);
      assert t.accepted == FateVerbs(t.fates) + WaitingVerbs(t.pending);
    } else if |s.pending| < QUEUE_LIMIT {
      var t := EnqueueLane(s, now, verb);
      assert WaitingVerbs(t.pending) == WaitingVerbs(s.pending) + [verb];
      assert FateVerbs(s.fates) + (WaitingVerbs(s.pending) + [verb])
             == (FateVerbs(s.fates) + WaitingVerbs(s.pending)) + [verb];
    }
  }

  /**
   Every step keeps the ledger and the queue, but one: a socket that opens while it is being
   replaced hands the backlog to the new link, which is not up yet and refuses it.
   */
  lemma StepSound(n: Net, step: Step)
    requires Sound(n) && Enabled(n, step)
    ensures Sound(Do(n, step)) <==> !step.OldOpens? || n.lane.pending == []
  {
    hide Ledger, AttachLane, DetachLane, FrameLane, Read, FailOld, FailAll, OnOpen;
    var s := n.lane;
    match step {
      case AsksVerb(verb) => AskedVerb(s, n.now, verb);
      case Timer =>
        LedgerSame(s, s.(expiry := None));
        FailOldSound(s.(expiry := None), n.now);
        TimerQueue(s, n.now);
        LedgerSame(FailOld(s.(expiry := None), n.now), ExpireLane(s, n.now));
      case Opens =>
        LedgerSame(s, s.(open := true, outbox := []));
        OpenedSound(s.(open := true, outbox := []), n.now);
      case OldOpens => OpenedSound(s, n.now);
      case Stops =>
        LedgerSame(s, s.(closed := true, expiry := None));
        FailAllSound(s.(closed := true, expiry := None));
      case _ => QuietStepSound(n, step);
    }
  }

  lemma QuietStepSound(n: Net, step: Step)
    requires Sound(n) && Enabled(n, step)
    requires !step.AsksVerb? && !step.Timer? && !step.Opens? && !step.OldOpens? && !step.Stops?
    ensures Sound(Do(n, step))
  {
    hide Ledger;
    LedgerSame(n.lane, Do(n, step).lane);
  }

  /** After the timer no verb waits that is as old as the wait allows, and the timer covers the rest. */
  lemma TimerQueue(s: LaneState, now: real)
    requires Ledger(s) && Queue(s, now)
    ensures Queue(ExpireLane(s, now), now)
    ensures forall w | w in ExpireLane(s, now).pending :: now - w.since < QUEUE_SECONDS
  {
    hide Ledger, FailOld;
    LedgerSame(s, s.(expiry := None));
    FailOldSound(s.(expiry := None), now);
    var t := FailOld(s.(expiry := None), now);
    if t.pending != [] {
      assert t.pending[0] in t.pending;
    }
  }

  predicate Runs(n: Net, steps: seq<Step>)
    decreases |steps|
  {
    steps == [] || (Enabled(n, steps[0]) && Runs(Do(n, steps[0]), steps[1..]))
  }

  function After(n: Net, steps: seq<Step>): Net
    decreases |steps|
  {
    if steps == [] then n else After(Do(n, steps[0]), steps[1..])
  }

  /** A lane just made: nothing attached, accepted or shown, on a socket that is not up. */
  function Start(now: real): Net {
    Net(LaneState([], map[], [], now, None, false, true, false, [], [], [], []), map[], false, [], map[], now)
  }

  /** No socket finishes dialing while it is being replaced and verbs wait. */
  predicate NoneLost(n: Net, steps: seq<Step>)
    decreases |steps|
  {
    steps == [] || ((steps[0].OldOpens? ==> n.lane.pending == []) && NoneLost(Do(n, steps[0]), steps[1..]))
  }

  /** Verbs accepted that have neither a fate nor a place in the queue. */
  function Missing(s: LaneState): int {
    |s.accepted| - |s.fates| - |s.pending|
  }

  lemma {:induction false} DrainMisses(s: LaneState)
    ensures Missing(Drain(s)) == Missing(s) + if s.open then 0 else |s.pending|
    ensures Drain(s).accepted == s.accepted
    decreases |s.pending|
  {
    if s.pending == [] {
    } else {
      DrainMisses(SendVerb(s.(pending := s.pending[1..]), s.pending[0].verb));
    }
  }

  lemma {:induction false} FailsMiss(s: LaneState, now: real)
    ensures Missing(FailOld(s, now)) == Missing(s) && Missing(FailAll(s)) == Missing(s)
    decreases |s.pending|
  {
    if s.pending == [] {
    } else {
      FailsMiss(s.(pending := s.pending[1..], fates := s.fates + [Failed(s.pending[0].verb)]), now);
    }
  }

  /** A verb once missing stays missing. */
  lemma StepMisses(n: Net, step: Step)
    requires Enabled(n, step)
    ensures Missing(Do(n, step).lane) >= Missing(n.lane)
    ensures step.OldOpens? && !n.lane.open ==> Missing(Do(n, step).lane) == Missing(n.lane) + |n.lane.pending|
  {
    hide Drain, Reattach, FailOld, FailAll, Read;
    var s := n.lane;
    FailsMiss(s.(expiry := None), n.now);
    FailsMiss(s.(closed := true, expiry := None), n.now);
    var o := s.(open := true, outbox := []);
    ReattachShape(s, s.attached);
    ReattachShape(o, o.attached);
    DrainMisses(Reattach(s, s.attached));
    DrainMisses(Reattach(o, o.attached));
  }

  lemma {:induction false} RunMisses(n: Net, steps: seq<Step>)
    requires Runs(n, steps)
    ensures Missing(After(n, steps).lane) >= Missing(n.lane)
    decreases |steps|
  {
    hide Missing, Enabled, Do;
    if steps == [] {
    } else {
      StepMisses(n, steps[0]);
      RunMisses(Do(n, steps[0]), steps[1..]);
    }
  }

  lemma LedgerMisses(s: LaneState)
    requires Ledger(s)
    ensures Missing(s) == 0
  {
  }

  /**
   Over any run every verb the lane accepted is handed to a link once or failed once, in the order it was
   accepted, or still waits; the queue is bounded, empty while the lane is open, and never without its timer:
   exactly when no socket being replaced came up over a waiting queue. A verb lost that way is lost for good.
   */
  lemma {:induction false} VerbsAccounted(n: Net, steps: seq<Step>)
    requires Sound(n) && Runs(n, steps)
    ensures Sound(After(n, steps)) <==> NoneLost(n, steps)
    decreases |steps|
  {
    hide Queue, Ledger, Enabled, Do, Missing;
    if steps == [] {
    } else {
      StepSound(n, steps[0]);
      if steps[0].OldOpens? && n.lane.pending != [] {
        LostForGood(n, steps);
      } else {
        VerbsAccounted(Do(n, steps[0]), steps[1..]);
      }
    }
  }

  lemma LostForGood(n: Net, steps: seq<Step>)
    requires Sound(n) && Runs(n, steps) && steps != [] && steps[0].OldOpens? && n.lane.pending != []
    ensures !Sound(After(n, steps))
  {
    hide Ledger, Enabled, Do, Missing;
    LedgerMisses(n.lane);
    StepMisses(n, steps[0]);
    RunMisses(Do(n, steps[0]), steps[1..]);
    if Sound(After(n, steps)) {
      LedgerMisses(After(n, steps).lane);
    }
  }

  lemma StartSound(now: real)
    ensures Sound(Start(now))
  {
    hide FateVerbs;
    assert FateVerbs([]) + WaitingVerbs([]) == [];
  }

  /** A closed lane keeps no verb waiting: each one it accepted was handed over or failed. */
  lemma StopSettles(n: Net)
    requires Sound(n)
    ensures var s := Do(n, Stops).lane; s.pending == [] && s.accepted == FateVerbs(s.fates)
  {
    var s := n.lane;
    LedgerSame(s, s.(closed := true, expiry := None));
    FailAllSound(s.(closed := true, expiry := None));
    var t := Do(n, Stops).lane;
    assert FateVerbs(t.fates) + WaitingVerbs([]) == FateVerbs(t.fates);
  }

  /**
   The step that breaks the ledger, in a run: a verb waits, a re-pairing swaps the socket while
   the old one is dialing, and the old one comes up before it has stopped. The verb is gone:
   never handed over, never failed, no longer waiting.
   */
  lemma VerbLost(verb: Verb, now: real)
    ensures var steps := [AsksVerb(verb), Relinks, OldOpens];
            && Runs(Start(now), steps)
            && var s := After(Start(now), steps).lane;
               s.accepted == [verb] && s.fates == [] && s.pending == [] && s.expiry == None
  {
    var a := Start(now);
    var b := Do(a, AsksVerb(verb));
    var c := Do(b, Relinks);
    DrainLost(c.lane);
    var steps := [AsksVerb(verb), Relinks, OldOpens];
    assert steps[1..] == [Relinks, OldOpens] && steps[1..][1..] == [OldOpens] && steps[1..][1..][1..] == [];
    assert Runs(c, [OldOpens]) by { assert [OldOpens][1..] == []; }
    assert Runs(b, [Relinks, OldOpens]) by { assert [Relinks, OldOpens][1..] == [OldOpens]; }
    assert After(c, [OldOpens]) == Do(c, OldOpens) by { assert [OldOpens][1..] == []; }
    assert After(b, [Relinks, OldOpens]) == Do(c, OldOpens) by { assert [Relinks, OldOpens][1..] == [OldOpens]; }
  }

  // ----------------------------------------------------------------- streams

  /** The seqs shown of one session, in order. */
  function SeqsOf(delivered: seq<Shown>, raw: string): seq<int> {
    if delivered == [] then []
    else
      var last := delivered[|delivered| - 1];
      SeqsOf(delivered[..|delivered| - 1], raw) + if last.raw == raw then [last.seqNo] else []
  }

  function Range(from: int, to: int): (r: seq<int>)
    requires from <= to
    ensures |r| == to - from && forall i | 0 <= i < |r| :: r[i] == from + i
  {
    seq(to - from, i requires 0 <= i < to - from => from + i)
  }

  predicate Valid(from: Option<int>) {
    from.None? || from.value >= 1
  }

  /** A frame that says something of the session to the other computer, which passes over a malformed attach. */
  predicate Heeded(f: Frame, raw: string) {
    !f.Sent? && f.raw == raw && (f.Attach? ==> Valid(f.from))
  }

  /** The attaches and detaches of one session among the frames. */
  function FramesOf(frames: seq<Frame>, raw: string): seq<Frame> {
    if frames == [] then []
    else (if Heeded(frames[0], raw) then [frames[0]] else []) + FramesOf(frames[1..], raw)
  }

  lemma {:induction false} FramesConcat(a: seq<Frame>, b: seq<Frame>, raw: string)
    ensures FramesOf(a + b, raw) == FramesOf(a, raw) + FramesOf(b, raw)
  {
    hide Heeded;
    if a == [] {
      assert a + b == b;
    } else {
      assert (a + b)[1..] == a[1..] + b;
      FramesConcat(a[1..], b, raw);
    }
  }

  lemma FramesOne(a: seq<Frame>, f: Frame, raw: string)
    ensures FramesOf(a + [f], raw) == FramesOf(a, raw) + if Heeded(f, raw) then [f] else []
  {
    hide Heeded;
    FramesConcat(a, [f], raw);
    assert [f][1..] == [];
    assert FramesOf([f], raw) == (if Heeded(f, raw) then [f] else []) + [];
  }

  function Count(attached: seq<Attached>, raw: string): nat {
    if attached == [] then 0 else (if attached[0].raw == raw then 1 else 0) + Count(attached[1..], raw)
  }

  /** One socket's view of the session: it streams from `next`, or will once its one attach is read, or not at all. */
  predicate SocketOk(outbox: seq<Frame>, remote: map<string, int>, raw: string, next: int) {
    var q := FramesOf(outbox, raw);
    if q == [] then raw in remote ==> remote[raw] == next
    else |q| == 1 && q[0].Attach? && Asked(q[0].from) == next && raw !in remote
  }

  /** The socket streams the session, or will. */
  predicate Carries(outbox: seq<Frame>, remote: map<string, int>, raw: string) {
    raw in remote || FramesOf(outbox, raw) != []
  }

  /**
   The session was attached once, from `from`, after `before` had been shown of it; of a socket and the one it
   replaces, no more than one carries it while both are up.
   */
  predicate Streaming(n: Net, raw: string, before: seq<int>, from: int) {
    var s := n.lane;
    && raw in s.lastSeq && s.lastSeq[raw] >= from - 1 >= 0
    && SeqsOf(s.delivered, raw) == before + Range(from, s.lastSeq[raw] + 1)
    && Count(s.attached, raw) == 1
    && (s.open ==> SocketOk(s.outbox, n.remote, raw, s.lastSeq[raw] + 1))
    && (n.relinking ==> SocketOk(n.oldOutbox, n.oldRemote, raw, s.lastSeq[raw] + 1))
    && (s.open && n.relinking ==> !Carries(n.oldOutbox, n.oldRemote, raw))
  }

  /** Nothing of the session is left on any socket. */
  predicate Untouched(n: Net, raw: string) {
    && Count(n.lane.attached, raw) == 0
    && FramesOf(n.lane.outbox, raw) == [] && raw !in n.remote
    && FramesOf(n.oldOutbox, raw) == [] && raw !in n.oldRemote
  }

  lemma {:induction false} CountSet(attached: seq<Attached>, raw: string, asked: int, other: string)
    ensures Count(SetAttached(attached, raw, asked), other)
            == if other != raw then Count(attached, other) else if Count(attached, raw) == 0 then 1
               else Count(attached, raw)
  {
    if attached != [] {
      CountSet(attached[1..], raw, asked, other);
      var out := SetAttached(attached, raw, asked);
      assert attached[0].raw != raw ==> out[1..] == SetAttached(attached[1..], raw, asked);
      assert attached[0].raw == raw ==> out[1..] == attached[1..];
    } else {
      assert SetAttached(attached, raw, asked)[1..] == [];
    }
  }

  lemma {:induction false} CountWithout(attached: seq<Attached>, raw: string, other: string)
    requires raw != other
    ensures Count(WithoutAttached(attached, raw), other) == Count(attached, other)
  {
    if attached == [] {
    } else {
      CountWithout(attached[1..], raw, other);
      var out := WithoutAttached(attached, raw);
      assert attached[0].raw != raw ==> out[1..] == WithoutAttached(attached[1..], raw);
    }
  }

  /** Attaching it once starts the stream, whatever else is going on. */
  lemma AttachStarts(n: Net, raw: string, from: Option<int>)
    requires Untouched(n, raw)
    ensures Streaming(Do(n, AsksAttach(raw, from)), raw, SeqsOf(n.lane.delivered, raw), Asked(from))
  {
    hide FramesOf, Count;
    CountSet(n.lane.attached, raw, Asked(from), raw);
    FramesOne(n.lane.outbox, Attach(raw, from), raw);
    var before := SeqsOf(n.lane.delivered, raw);
    assert before + Range(Asked(from), Asked(from)) == before;
  }

  /** Re-attaching on a fresh socket asks for each session once, from one past the last seq shown. */
  lemma {:induction false} ReattachFrames(s: LaneState, attached: seq<Attached>, raw: string)
    requires s.open && raw in s.lastSeq && s.lastSeq[raw] >= 0 && Count(attached, raw) <= 1
    ensures FramesOf(Reattach(s, attached).outbox, raw)
            == FramesOf(s.outbox, raw) + if Count(attached, raw) == 1 then [Attach(raw, Some(s.lastSeq[raw] + 1))]
               else []
    decreases |attached|
  {
    hide FramesOf;
    if attached != [] {
      var f := Attach(attached[0].raw, Some(NextSeq(s, attached[0])));
      FramesOne(s.outbox, f, raw);
      ReattachFrames(SendFrame(s, f), attached[1..], raw);
    } else {
      assert FramesOf(s.outbox, raw) + [] == FramesOf(s.outbox, raw);
    }
  }

  lemma {:induction false} DrainFrames(s: LaneState, raw: string)
    ensures FramesOf(Drain(s).outbox, raw) == FramesOf(s.outbox, raw)
    ensures Drain(s) == s.(pending := [], outbox := Drain(s).outbox, fates := Drain(s).fates)
    decreases |s.pending|
  {
    if s.pending == [] {
    } else {
      FramesOne(s.outbox, Sent(s.pending[0].verb), raw);
      assert FramesOf(s.outbox, raw) + [] == FramesOf(s.outbox, raw);
      DrainFrames(SendVerb(s.(pending := s.pending[1..]), s.pending[0].verb), raw);
    }
  }

  lemma OpenFrames(s: LaneState, now: real, raw: string)
    requires raw in s.lastSeq && s.lastSeq[raw] >= 0 && Count(s.attached, raw) == 1
    ensures var t := OpenLane(s, now);
            && t.open && t.attached == s.attached && t.lastSeq == s.lastSeq && t.delivered == s.delivered
            && FramesOf(t.outbox, raw) == [Attach(raw, Some(s.lastSeq[raw] + 1))]
  {
    hide Drain, Reattach, Count;
    var o := s.(open := true, outbox := []);
    ReattachShape(o, o.attached);
    ReattachFrames(o, o.attached, raw);
    DrainFrames(Reattach(o, o.attached), raw);
    assert FramesOf([], raw) == [];
  }

  /** The other computer reads the head of an outbox. */
  lemma ReadKeeps(outbox: seq<Frame>, remote: map<string, int>, raw: string, next: int)
    requires outbox != [] && SocketOk(outbox, remote, raw, next)
    ensures SocketOk(outbox[1..], Read(outbox[0], remote), raw, next)
    ensures !Carries(outbox, remote, raw) ==> !Carries(outbox[1..], Read(outbox[0], remote), raw)
  {
    hide FramesOf;
    HeadFrame(outbox, raw);
  }

  lemma HeadFrame(outbox: seq<Frame>, raw: string)
    requires outbox != []
    ensures var f := outbox[0];
            FramesOf(outbox, raw) == (if Heeded(f, raw) then [f] else []) + FramesOf(outbox[1..], raw)
  {
  }

  lemma SeqsMore(delivered: seq<Shown>, e: Shown, raw: string)
    ensures SeqsOf(delivered + [e], raw) == SeqsOf(delivered, raw) + if e.raw == raw then [e.seqNo] else []
  {
    assert (delivered + [e])[..|delivered|] == delivered;
  }

  lemma FrameStreams(s: LaneState, now: real, raw: string, other: string, seqNo: int, before: seq<int>, from: int)
    requires raw in s.lastSeq && s.lastSeq[raw] >= from - 1
             && SeqsOf(s.delivered, raw) == before + Range(from, s.lastSeq[raw] + 1)
    requires other == raw ==> seqNo == s.lastSeq[raw] + 1
    ensures var t := FrameLane(s, now, other, seqNo);
            && raw in t.lastSeq && t.lastSeq[raw] == s.lastSeq[raw] + (if other == raw then 1 else 0)
            && SeqsOf(t.delivered, raw) == before + Range(from, t.lastSeq[raw] + 1)
  {
    hide SeqsOf, Range;
    SeqsMore(s.delivered, Shown(other, seqNo), raw);
    var last := s.lastSeq[raw];
    if other == raw {
      assert before + Range(from, (last + 1) + 1) == (before + Range(from, last + 1)) + [(last + 1)] by {
        assert Range(from, (last + 1) + 1) == Range(from, last + 1) + [(last + 1)];
      }
    } else {
      assert SeqsOf(s.delivered, raw) + [] == SeqsOf(s.delivered, raw);
    }
  }

  /** Attaches and detaches of other sessions leave this one's frames alone. */
  lemma OtherSessions(n: Net, step: Step, raw: string)
    requires (step.AsksAttach? || step.AsksDetach?) && step.raw != raw
    ensures var s, t := n.lane, Do(n, step).lane;
            && (raw in s.lastSeq ==> raw in t.lastSeq && t.lastSeq[raw] == s.lastSeq[raw])
            && Count(t.attached, raw) == Count(s.attached, raw)
            && FramesOf(t.outbox, raw) == FramesOf(s.outbox, raw) && t.delivered == s.delivered && t.open == s.open
  {
    hide FramesOf;
    var s := n.lane;
    if step.AsksAttach? {
      CountSet(s.attached, step.raw, Asked(step.from), raw);
      FramesOne(s.outbox, Attach(step.raw, step.from), raw);
    } else {
      CountWithout(s.attached, step.raw, raw);
      FramesOne(s.outbox, Detach(step.raw), raw);
    }
    assert FramesOf(s.outbox, raw) + [] == FramesOf(s.outbox, raw);
  }

  /** Timer and stop touch no session. */
  lemma {:induction false} FailsTouchNothing(s: LaneState, now: real)
    ensures FailOld(s, now) == s.(pending := FailOld(s, now).pending, fates := FailOld(s, now).fates)
    ensures FailAll(s) == s.(pending := FailAll(s).pending, fates := FailAll(s).fates)
    decreases |s.pending|
  {
    if s.pending == [] {
    } else {
      FailsTouchNothing(s.(pending := s.pending[1..], fates := s.fates + [Failed(s.pending[0].verb)]), now);
    }
  }

  /** The steps of one session's viewer that end or restart its stream. */
  predicate Reasks(step: Step, raw: string) {
    (step.AsksAttach? || step.AsksDetach?) && step.raw == raw
  }

  /**
   The two races of a re-pairing: the new socket opens while the old one, not stopped yet, carries the session;
   or the old one comes up when the new one carries it, and has it attached there again.
   */
  predicate Races(n: Net, step: Step, raw: string) {
    n.relinking
    && ((step.Opens? && Carries(n.oldOutbox, n.oldRemote, raw))
        || (step.OldOpens? && n.lane.open && Carries(n.lane.outbox, n.remote, raw)))
  }

  /** No step but the viewer's own breaks the stream, drops, re-dials and re-pairings included, but for a race. */
  lemma StepStreams(n: Net, step: Step, raw: string, before: seq<int>, from: int)
    requires Streaming(n, raw, before, from) && Enabled(n, step) && !Reasks(step, raw) && !Races(n, step, raw)
    ensures Streaming(Do(n, step), raw, before, from)
  {
    hide OpenLane;
    if step.Opens? {
      assert Streaming(Do(n, Opens), raw, before, from) by {
        hide SeqsOf, FramesOf, Count, Range, OpenLane;
        OpenFrames(n.lane, n.now, raw);
      }
    } else if step.OldOpens? {
      OldOpensStreams(n, raw, before, from);
    } else if step.Receives? || step.OldReceives? {
      ReadStreams(n, step, raw, before, from);
    } else if step.Streams? || step.OldStreams? {
      StreamStep(n, step.raw, raw, before, from);
    } else if step.AsksAttach? || step.AsksDetach? || step.AsksVerb? {
      AskStreams(n, step, raw, before, from);
    } else {
      IdleStreams(n, step, raw, before, from);
    }
  }

  /** What an old socket that comes up adds to the new one. */
  lemma OldOpenFrames(s: LaneState, now: real, raw: string)
    requires raw in s.lastSeq && s.lastSeq[raw] >= 0 && Count(s.attached, raw) == 1
    ensures var t := OnOpen(s, now);
            && t.open == s.open && t.attached == s.attached && t.lastSeq == s.lastSeq && t.delivered == s.delivered
            && s.outbox <= t.outbox
            && FramesOf(t.outbox, raw)
               == FramesOf(s.outbox, raw) + if s.open then [Attach(raw, Some(s.lastSeq[raw] + 1))] else []
  {
    hide Drain, Reattach, FramesOf, Count;
    ReattachShape(s, s.attached);
    if s.open {
      ReattachFrames(s, s.attached, raw);
    } else {
      ReattachClosed(s, s.attached);
      assert FramesOf(s.outbox, raw) + [] == FramesOf(s.outbox, raw);
    }
    DrainFrames(Reattach(s, s.attached), raw);
    ReattachGrows(s, s.attached);
    DrainGrows(Reattach(s, s.attached));
  }

  lemma {:induction false} ReattachClosed(s: LaneState, attached: seq<Attached>)
    requires !s.open
    ensures Reattach(s, attached) == s
    decreases |attached|
  {
    if attached == [] {
    } else {
      ReattachClosed(s, attached[1..]);
    }
  }

  lemma {:induction false} ReattachGrows(s: LaneState, attached: seq<Attached>)
    ensures s.outbox <= Reattach(s, attached).outbox
    decreases |attached|
  {
    if attached == [] {
    } else {
      ReattachGrows(SendFrame(s, Attach(attached[0].raw, Some(NextSeq(s, attached[0])))), attached[1..]);
    }
  }

  lemma {:induction false} DrainGrows(s: LaneState)
    ensures s.outbox <= Drain(s).outbox
    decreases |s.pending|
  {
    if s.pending == [] {
    } else {
      DrainGrows(SendVerb(s.(pending := s.pending[1..]), s.pending[0].verb));
    }
  }

  lemma OldOpensStreams(n: Net, raw: string, before: seq<int>, from: int)
    requires Streaming(n, raw, before, from) && Enabled(n, OldOpens) && !Races(n, OldOpens, raw)
    ensures Streaming(Do(n, OldOpens), raw, before, from)
  {
    hide SeqsOf, FramesOf, Count, Range, OnOpen;
    OldOpenFrames(n.lane, n.now, raw);
  }

  lemma ReadStreams(n: Net, step: Step, raw: string, before: seq<int>, from: int)
    requires Streaming(n, raw, before, from) && Enabled(n, step) && (step.Receives? || step.OldReceives?)
    ensures Streaming(Do(n, step), raw, before, from)
  {
    hide SeqsOf, Count, Range, Read, SocketOk, Carries;
    var s := n.lane;
    if step.Receives? {
      ReadKeeps(s.outbox, n.remote, raw, s.lastSeq[raw] + 1);
    } else {
      ReadKeeps(n.oldOutbox, n.oldRemote, raw, s.lastSeq[raw] + 1);
    }
  }

  lemma AskStreams(n: Net, step: Step, raw: string, before: seq<int>, from: int)
    requires Streaming(n, raw, before, from) && Enabled(n, step) && !Reasks(step, raw)
    requires step.AsksAttach? || step.AsksDetach? || step.AsksVerb?
    ensures Streaming(Do(n, step), raw, before, from)
  {
    hide SeqsOf, FramesOf, Count, Range;
    if step.AsksVerb? {
      assert FramesOf(SendLane(n.lane, n.now, step.verb).outbox, raw) == FramesOf(n.lane.outbox, raw) by {
        FramesOne(n.lane.outbox, Sent(step.verb), raw);
        assert FramesOf(n.lane.outbox, raw) + [] == FramesOf(n.lane.outbox, raw);
      }
    } else {
      OtherSessions(n, step, raw);
    }
  }

  lemma IdleStreams(n: Net, step: Step, raw: string, before: seq<int>, from: int)
    requires Streaming(n, raw, before, from) && Enabled(n, step)
    requires step.Wait? || step.Timer? || step.Drops? || step.Wakes? || step.Relinks? || step.RelinkDone? || step.Stops?
    ensures Streaming(Do(n, step), raw, before, from)
  {
    hide SeqsOf, FramesOf, Count, Range, FailOld, FailAll;
    var s := n.lane;
    match step {
      case Timer => FailsTouchNothing(s.(expiry := None), n.now);
      case Stops => FailsTouchNothing(s.(closed := true, expiry := None), n.now);
      case Relinks => NoFrames(raw);
      case _ =>
    }
  }

  lemma NoFrames(raw: string)
    ensures FramesOf([], raw) == []
  {
  }

  lemma StreamStep(n: Net, other: string, raw: string, before: seq<int>, from: int)
    requires Streaming(n, raw, before, from)
    ensures Enabled(n, Streams(other)) ==> Streaming(Do(n, Streams(other)), raw, before, from)
    ensures Enabled(n, OldStreams(other)) ==> Streaming(Do(n, OldStreams(other)), raw, before, from)
  {
    hide SeqsOf, FramesOf, Count, Range;
    if Enabled(n, Streams(other)) {
      FrameStreams(n.lane, n.now, raw, other, n.remote[other], before, from);
    }
    if Enabled(n, OldStreams(other)) {
      FrameStreams(n.lane, n.now, raw, other, n.oldRemote[other], before, from);
    }
  }

  /** No re-pairing of the run races. */
  predicate Patient(n: Net, steps: seq<Step>, raw: string)
    decreases |steps|
  {
    steps == [] || (!Races(n, steps[0], raw) && Patient(Do(n, steps[0]), steps[1..], raw))
  }

  /**
   After one attach, across any number of drops, re-dials and re-pairings, whatever the network
   loses: the log events the viewer is shown of that session are the seq it asked for, the next,
   the next, with no gap and no repeat.
   */
  lemma {:induction false} NoGapNoRepeat(n: Net, raw: string, from: Option<int>, steps: seq<Step>)
    requires Untouched(n, raw) && Runs(Do(n, AsksAttach(raw, from)), steps)
             && Patient(Do(n, AsksAttach(raw, from)), steps, raw)
    requires forall step | step in steps :: !Reasks(step, raw)
    ensures var end := After(Do(n, AsksAttach(raw, from)), steps);
            var before, shown := SeqsOf(n.lane.delivered, raw), SeqsOf(end.lane.delivered, raw);
            && |before| <= |shown| && shown[..|before|] == before
            && forall i | |before| <= i < |shown| :: shown[i] == Asked(from) + i - |before|
  {
    hide *;
    AttachStarts(n, raw, from);
    RunStreams(Do(n, AsksAttach(raw, from)), steps, raw, SeqsOf(n.lane.delivered, raw), Asked(from));
    StreamShape(After(Do(n, AsksAttach(raw, from)), steps), raw, SeqsOf(n.lane.delivered, raw), Asked(from));
  }

  lemma StreamShape(n: Net, raw: string, before: seq<int>, from: int)
    requires Streaming(n, raw, before, from)
    ensures var shown := SeqsOf(n.lane.delivered, raw);
            && |before| <= |shown| && shown[..|before|] == before
            && forall i | |before| <= i < |shown| :: shown[i] == from + i - |before|
  {
  }

  lemma {:induction false} RunStreams(n: Net, steps: seq<Step>, raw: string, before: seq<int>, from: int)
    requires Streaming(n, raw, before, from) && Runs(n, steps) && Patient(n, steps, raw)
    requires forall step | step in steps :: !Reasks(step, raw)
    ensures Streaming(After(n, steps), raw, before, from)
    decreases |steps|
  {
    hide Streaming, Do, Enabled, Reasks, Races;
    if steps == [] {
    } else {
      assert steps[0] in steps && forall step | step in steps[1..] :: step in steps;
      StepStreams(n, steps[0], raw, before, from);
      RunStreams(Do(n, steps[0]), steps[1..], raw, before, from);
    }
  }

  // ------------------------------------------------------- what a race costs

  /** The events shown of the session since `before` are `from`, the next, the next. */
  ghost predicate ShownInOrder(n: Net, raw: string, before: seq<int>, from: int) {
    exists to | from <= to :: SeqsOf(n.lane.delivered, raw) == before + Range(from, to)
  }

  /** Whatever happens next, if nothing races and the viewer asks for nothing else, they stay so. */
  ghost predicate Safe(n: Net, raw: string, before: seq<int>, from: int) {
    forall steps :: Runs(n, steps) && Patient(n, steps, raw) && (forall step | step in steps :: !Reasks(step, raw)) ==>
      ShownInOrder(After(n, steps), raw, before, from)
  }

  lemma StreamingSafe(n: Net, raw: string, before: seq<int>, from: int)
    requires Streaming(n, raw, before, from)
    ensures Safe(n, raw, before, from)
  {
    forall steps | Runs(n, steps) && Patient(n, steps, raw) && (forall step | step in steps :: !Reasks(step, raw))
      ensures ShownInOrder(After(n, steps), raw, before, from)
    {
      RunStreams(n, steps, raw, before, from);
      assert ShownInOrder(After(n, steps), raw, before, from) by { hide SeqsOf, Range; }
    }
  }

  /**
   A step of a streaming session is safe exactly when it is no race: behind every race lies a run, itself
   without one, that shows an event twice.
   */
  lemma StepSafe(n: Net, step: Step, raw: string, before: seq<int>, from: int)
    requires Streaming(n, raw, before, from) && Enabled(n, step) && !Reasks(step, raw)
    ensures Safe(Do(n, step), raw, before, from) <==> !Races(n, step, raw)
  {
    hide Streaming, Races, Enabled, Do, ShownInOrder, Patient;
    if Races(n, step, raw) {
      var steps := ShownTwice(n, step, raw, before, from);
      TwiceOutOfOrder(n, After(Do(n, step), steps), raw, before, from);
    } else {
      StepStreams(n, step, raw, before, from);
      StreamingSafe(Do(n, step), raw, before, from);
    }
  }

  lemma TwiceOutOfOrder(n: Net, end: Net, raw: string, before: seq<int>, from: int)
    requires Streaming(n, raw, before, from)
    requires var next := n.lane.lastSeq[raw] + 1;
             SeqsOf(end.lane.delivered, raw) == SeqsOf(n.lane.delivered, raw) + [next, next]
    ensures !ShownInOrder(end, raw, before, from)
  {
    hide SeqsOf, Range;
    var next := n.lane.lastSeq[raw] + 1;
    var shown, k := SeqsOf(end.lane.delivered, raw), |before| + next - from;
    assert |SeqsOf(n.lane.delivered, raw)| == k && shown[k + 1] == next && |shown| == k + 2;
    forall to | from <= to ensures shown != before + Range(from, to) {
      var r := before + Range(from, to);
      assert |r| == k + 2 ==> r[k + 1] == next + 1;
    }
  }

  /** A run is safe throughout exactly when none of its steps races. */
  lemma {:induction false} StreamsExactly(n: Net, steps: seq<Step>, raw: string, before: seq<int>, from: int)
    requires Streaming(n, raw, before, from) && Runs(n, steps) && forall step | step in steps :: !Reasks(step, raw)
    ensures SafeThroughout(n, steps, raw, before, from) <==> Patient(n, steps, raw)
    decreases |steps|
  {
    hide Streaming, Do, Enabled, Reasks, Races, Safe;
    StreamingSafe(n, raw, before, from);
    if steps == [] {
    } else {
      assert steps[0] in steps && forall step | step in steps[1..] :: step in steps;
      StepSafe(n, steps[0], raw, before, from);
      if Races(n, steps[0], raw) {
        assert !SafeThroughout(Do(n, steps[0]), steps[1..], raw, before, from);
      } else {
        StepStreams(n, steps[0], raw, before, from);
        StreamsExactly(Do(n, steps[0]), steps[1..], raw, before, from);
      }
    }
  }

  ghost predicate SafeThroughout(n: Net, steps: seq<Step>, raw: string, before: seq<int>, from: int)
    decreases |steps|
  {
    Safe(n, raw, before, from) && (steps == [] || SafeThroughout(Do(n, steps[0]), steps[1..], raw, before, from))
  }

  // -------------------------------------------------------- reading an outbox

  function ReadSeq(frames: seq<Frame>, remote: map<string, int>): map<string, int> {
    if frames == [] then remote else ReadSeq(frames[1..], Read(frames[0], remote))
  }

  /** Reading leaves a session as it was, or at the seq of its one attach. */
  lemma {:induction false} ReadSeqOf(frames: seq<Frame>, remote: map<string, int>, raw: string)
    ensures var r, q := ReadSeq(frames, remote), FramesOf(frames, raw);
            && (q == [] ==> (raw in r <==> raw in remote) && (raw in r ==> r[raw] == remote[raw]))
            && (|q| == 1 && q[0].Attach? ==> raw in r && r[raw] == Asked(q[0].from))
    decreases |frames|
  {
    if frames == [] {
    } else {
      HeadFrame(frames, raw);
      ReadSeqOf(frames[1..], Read(frames[0], remote), raw);
    }
  }

  function Times(step: Step, k: nat): seq<Step> {
    if k == 0 then [] else [step] + Times(step, k - 1)
  }

  lemma {:induction false} ReadsRun(n: Net, a: seq<Frame>, b: seq<Frame>)
    requires n.lane.open && n.lane.outbox == a + b
    ensures Runs(n, Times(Receives, |a|))
    ensures After(n, Times(Receives, |a|)) == n.(lane := n.lane.(outbox := b), remote := ReadSeq(a, n.remote))
    decreases |a|
  {
    if a == [] {
      assert a + b == b;
    } else {
      var m := Do(n, Receives);
      assert m.lane.outbox == a[1..] + b;
      ReadsRun(m, a[1..], b);
      RunsBack(n, Receives, Times(Receives, |a| - 1));
    }
  }

  lemma {:induction false} OldReadsRun(n: Net)
    requires n.relinking
    ensures var steps := Times(OldReceives, |n.oldOutbox|);
            && Runs(n, steps)
            && After(n, steps) == n.(oldOutbox := [], oldRemote := ReadSeq(n.oldOutbox, n.oldRemote))
    decreases |n.oldOutbox|
  {
    if n.oldOutbox != [] {
      var m := Do(n, OldReceives);
      OldReadsRun(m);
      RunsBack(n, OldReceives, Times(OldReceives, |m.oldOutbox|));
    }
  }

  lemma {:induction false} OnlyTimes(step: Step, k: nat)
    ensures forall x | x in Times(step, k) :: x == step
  {
    if k > 0 {
      OnlyTimes(step, k - 1);
    }
  }

  /** The socket is up and the session attached from its first event, read by the other computer. */
  function Streamed(raw: string): Net {
    Net(LaneState([Attached(raw, 1)], map[raw := 0], [], 0.0, None, false, true, true, [], [], [], []),
        map[raw := 1], false, [], map[], 0.0)
  }

  lemma StreamedIsReached(raw: string)
    ensures var steps := [AsksAttach(raw, None), Opens, Receives];
            Runs(Start(0.0), steps) && After(Start(0.0), steps) == Streamed(raw)
  {
    var a := Do(Start(0.0), AsksAttach(raw, None));
    assert a.lane == Start(0.0).lane.(attached := [Attached(raw, 1)], lastSeq := map[raw := 0]);
    var b := Do(a, Opens);
    var o := a.lane.(open := true, outbox := []);
    assert Reattach(o, o.attached) == o.(outbox := [Attach(raw, Some(1))]) by {
      assert o.attached[1..] == [];
      assert o.outbox + [Attach(raw, Some(1))] == [Attach(raw, Some(1))];
    }
    var c := Do(b, Receives);
    assert c == Streamed(raw);
    var steps := [AsksAttach(raw, None), Opens, Receives];
    assert steps[1..] == [Opens, Receives] && [Opens, Receives][1..] == [Receives] && [Receives][1..] == [];
    assert Runs(b, [Receives]) && After(b, [Receives]) == c;
    assert Runs(a, [Opens, Receives]) && After(a, [Opens, Receives]) == c;
  }

  /** Steps that open no socket race with nothing. */
  lemma {:induction false} NoneOpens(n: Net, steps: seq<Step>, raw: string)
    requires Runs(n, steps) && forall step | step in steps :: !step.Opens? && !step.OldOpens?
    ensures Patient(n, steps, raw)
    decreases |steps|
  {
    hide Enabled, Do;
    if steps == [] {
    } else {
      assert steps[0] in steps && forall step | step in steps[1..] :: step in steps;
      NoneOpens(Do(n, steps[0]), steps[1..], raw);
    }
  }

  /** Behind a race lies a run without one that shows an event twice. */
  lemma ShownTwice(n: Net, step: Step, raw: string, before: seq<int>, from: int) returns (steps: seq<Step>)
    requires Streaming(n, raw, before, from) && Enabled(n, step) && Races(n, step, raw)
    ensures var m, next := Do(n, step), n.lane.lastSeq[raw] + 1;
            && Runs(m, steps) && Patient(m, steps, raw) && (forall step | step in steps :: !Reasks(step, raw))
            && SeqsOf(After(m, steps).lane.delivered, raw) == SeqsOf(n.lane.delivered, raw) + [next, next]
  {
    hide SeqsOf, Do, Enabled, FramesOf, Count, Range, Streaming;
    if step.Opens? {
      steps := TwoSockets(n, raw, before, from);
    } else {
      steps := TwoAttaches(n, raw, before, from);
    }
    NoneOpens(Do(n, step), steps, raw);
  }

  /** Both sockets read what is on them, and both stream. */
  lemma TwoSockets(n: Net, raw: string, before: seq<int>, from: int) returns (steps: seq<Step>)
    requires Streaming(n, raw, before, from) && Enabled(n, Opens) && Races(n, Opens, raw)
    ensures var m, next := Do(n, Opens), n.lane.lastSeq[raw] + 1;
            && Runs(m, steps) && (forall step | step in steps :: !Reasks(step, raw) && !step.Opens? && !step.OldOpens?)
            && SeqsOf(After(m, steps).lane.delivered, raw) == SeqsOf(n.lane.delivered, raw) + [next, next]
  {
    hide SeqsOf, FramesOf, Count, Range, OpenLane, ReadSeq, Times, Runs, After;
    var m, next := Do(n, Opens), n.lane.lastSeq[raw] + 1;
    OpenFrames(n.lane, n.now, raw);
    ReadSeqOf(m.lane.outbox, m.remote, raw);
    ReadSeqOf(m.oldOutbox, m.oldRemote, raw);
    assert m.lane.outbox + [] == m.lane.outbox;
    ReadsRun(m, m.lane.outbox, []);
    var news, olds := Times(Receives, |m.lane.outbox|), Times(OldReceives, |m.oldOutbox|);
    var a := After(m, news);
    OldReadsRun(a);
    var b := After(a, olds);
    TwoStreams(b, raw, next);
    RunOn(a, olds, [Streams(raw), OldStreams(raw)]);
    RunOn(m, news, olds + [Streams(raw), OldStreams(raw)]);
    OnlyTimes(Receives, |m.lane.outbox|);
    OnlyTimes(OldReceives, |m.oldOutbox|);
    steps := news + (olds + [Streams(raw), OldStreams(raw)]);
  }

  /** The new socket streams, reads the second attach, and streams again. */
  lemma TwoAttaches(n: Net, raw: string, before: seq<int>, from: int) returns (steps: seq<Step>)
    requires Streaming(n, raw, before, from) && Enabled(n, OldOpens) && Races(n, OldOpens, raw)
    ensures var m, next := Do(n, OldOpens), n.lane.lastSeq[raw] + 1;
            && Runs(m, steps) && (forall step | step in steps :: !Reasks(step, raw) && !step.Opens? && !step.OldOpens?)
            && SeqsOf(After(m, steps).lane.delivered, raw) == SeqsOf(n.lane.delivered, raw) + [next, next]
  {
    hide SeqsOf, FramesOf, Count, Range, OnOpen, ReadSeq, Runs, After;
    var m, next := Do(n, OldOpens), n.lane.lastSeq[raw] + 1;
    OldOpenFrames(n.lane, n.now, raw);
    var first, rest := n.lane.outbox, m.lane.outbox[|n.lane.outbox|..];
    FramesConcat(first, rest, raw);
    assert first + rest == m.lane.outbox;
    assert FramesOf(rest, raw) == [Attach(raw, Some(next))] by {
      assert FramesOf(first + rest, raw)[|FramesOf(first, raw)|..] == FramesOf(rest, raw);
    }
    ReadSeqOf(first, m.remote, raw);
    steps := TwoTurns(m, first, rest, raw, next);
  }

  lemma TwoTurns(n: Net, first: seq<Frame>, rest: seq<Frame>, raw: string, next: int) returns (steps: seq<Step>)
    requires n.lane.open && n.lane.outbox == first + rest && next >= 1
    requires FramesOf(rest, raw) == [Attach(raw, Some(next))]
    requires var r := ReadSeq(first, n.remote); raw in r && r[raw] == next
    ensures Runs(n, steps) && forall step | step in steps :: !Reasks(step, raw) && !step.Opens? && !step.OldOpens?
    ensures SeqsOf(After(n, steps).lane.delivered, raw) == SeqsOf(n.lane.delivered, raw) + [next, next]
  {
    hide SeqsOf, FramesOf, ReadSeq, Runs, After;
    ReadsRun(n, first, rest);
    var news := Times(Receives, |first|);
    var a := After(n, news);
    var b := Do(a, Streams(raw));
    SeqsMore(a.lane.delivered, Shown(raw, next), raw);
    var tail := Turn(b, raw, next);
    RunsBack(a, Streams(raw), tail);
    RunOn(n, news, [Streams(raw)] + tail);
    OnlyTimes(Receives, |first|);
    steps := news + ([Streams(raw)] + tail);
    assert SeqsOf(n.lane.delivered, raw) + [next] + [next] == SeqsOf(n.lane.delivered, raw) + [next, next];
  }

  /** An attach read to the end of the outbox starts the session at its seq. */
  lemma Turn(n: Net, raw: string, next: int) returns (steps: seq<Step>)
    requires n.lane.open && FramesOf(n.lane.outbox, raw) == [Attach(raw, Some(next))] && next >= 1
    ensures Runs(n, steps) && forall step | step in steps :: !Reasks(step, raw) && !step.Opens? && !step.OldOpens?
    ensures SeqsOf(After(n, steps).lane.delivered, raw) == SeqsOf(n.lane.delivered, raw) + [next]
  {
    hide SeqsOf, FramesOf, ReadSeq, Runs, After;
    var rest := n.lane.outbox;
    ReadSeqOf(rest, n.remote, raw);
    assert rest + [] == rest;
    ReadsRun(n, rest, []);
    var c := After(n, Times(Receives, |rest|));
    SeqsMore(c.lane.delivered, Shown(raw, next), raw);
    OneStep(c, Streams(raw));
    RunOn(n, Times(Receives, |rest|), [Streams(raw)]);
    OnlyTimes(Receives, |rest|);
    steps := Times(Receives, |rest|) + [Streams(raw)];
  }

  lemma OneStep(n: Net, step: Step)
    requires Enabled(n, step)
    ensures Runs(n, [step]) && After(n, [step]) == Do(n, step)
  {
    assert [step][1..] == [];
  }

  lemma TwoStreams(n: Net, raw: string, next: int)
    requires n.lane.open && n.relinking && raw in n.remote && raw in n.oldRemote
             && n.remote[raw] == n.oldRemote[raw] == next
    ensures Runs(n, [Streams(raw), OldStreams(raw)])
    ensures SeqsOf(After(n, [Streams(raw), OldStreams(raw)]).lane.delivered, raw)
            == SeqsOf(n.lane.delivered, raw) + [next, next]
  {
    hide SeqsOf;
    var m := Do(n, Streams(raw));
    var t := Do(m, OldStreams(raw));
    SeqsMore(n.lane.delivered, Shown(raw, next), raw);
    SeqsMore(m.lane.delivered, Shown(raw, next), raw);
    assert SeqsOf(t.lane.delivered, raw) == SeqsOf(n.lane.delivered, raw) + [next] + [next];
    RunsBack(m, OldStreams(raw), []);
    RunsBack(n, Streams(raw), [OldStreams(raw)]);
    assert [OldStreams(raw)] + [] == [OldStreams(raw)]
           && [Streams(raw)] + [OldStreams(raw)] == [Streams(raw), OldStreams(raw)];
  }

  lemma {:induction false} RunOn(n: Net, steps: seq<Step>, more: seq<Step>)
    requires Runs(n, steps) && Runs(After(n, steps), more)
    ensures Runs(n, steps + more) && After(n, steps + more) == After(After(n, steps), more)
    decreases |steps|
  {
    hide Enabled, Do;
    if steps == [] {
      assert steps + more == more;
    } else {
      RunOn(Do(n, steps[0]), steps[1..], more);
      assert (steps + more)[1..] == steps[1..] + more;
    }
  }

  /** A race is reached: a lane whose session streams is re-paired and woken, and its new socket opens. */
  lemma RaceReached(raw: string)
    ensures var steps := [AsksAttach(raw, None), Opens, Receives, Relinks, Wakes];
            && Runs(Start(0.0), steps)
            && var n := After(Start(0.0), steps);
               Streaming(n, raw, [], 1) && Enabled(n, Opens) && Races(n, Opens, raw)
  {
    hide Range;
    StreamedIsReached(raw);
    var n := Streamed(raw);
    OneStep(Do(n, Relinks), Wakes);
    RunsBack(n, Relinks, [Wakes]);
    RunOn(Start(0.0), [AsksAttach(raw, None), Opens, Receives], [Relinks] + [Wakes]);
    assert [AsksAttach(raw, None), Opens, Receives] + ([Relinks] + [Wakes])
           == [AsksAttach(raw, None), Opens, Receives, Relinks, Wakes];
    assert Count(n.lane.attached, raw) == 1 by { assert n.lane.attached[1..] == []; }
    var none: seq<int> := [];
    assert none + Range(1, 1) == [];
  }

  lemma RunsBack(n: Net, step: Step, rest: seq<Step>)
    requires Enabled(n, step) && Runs(Do(n, step), rest)
    ensures Runs(n, [step] + rest) && After(n, [step] + rest) == After(Do(n, step), rest)
  {
    hide Enabled, Do;
    assert ([step] + rest)[1..] == rest;
  }
}
