/**
 One viewer's lane to one paired computer (core/tstd/bridge_lane.py) on its socket
 (core/tstd/bridge_link.py): what each method does to the lane, as a function of its
 state. Methods without an await are one step.
 */
module BridgeLane {
  import opened Text

  const QUEUE_SECONDS: real := 10.0
  const QUEUE_LIMIT := 64
  /** The shortest wait an expiry timer is armed for. */
  const SHORTEST_WAIT: real := 0.01

  /** A viewer's verb; `tag` tells two equal ones apart. */
  datatype Verb = Verb(kind: string, session: string, tag: nat)

  /** A frame handed to a socket. */
  datatype Frame = Attach(raw: string, from: Option<int>) | Detach(raw: string) | Sent(verb: Verb)

  /** A session the viewer attached, and the seq it asked for. */
  datatype Attached = Attached(raw: string, asked: int)

  datatype Waiting = Waiting(since: real, verb: Verb)

  /** What became of a verb the lane accepted. */
  datatype Fate = Handed(verb: Verb) | Failed(verb: Verb)

  /** A log event shown to the viewer. */
  datatype Shown = Shown(raw: string, seqNo: int)

  /**
   The fields of a lane and of its link; then what the outside has seen of it: the verbs
   it accepted, what became of them, and the log events it delivered, each in order.
   */
  datatype LaneState = LaneState(
    attached: seq<Attached>, lastSeq: map<string, int>, pending: seq<Waiting>, touched: real,
    expiry: Option<real>, closed: bool, running: bool, open: bool, outbox: seq<Frame>,
    accepted: seq<Verb>, fates: seq<Fate>, delivered: seq<Shown>)

  // ---------------------------------------------------------------- the link

  /** `UpstreamLink.send`: queued on the open socket, or refused. */
  function SendFrame(s: LaneState, frame: Frame): LaneState {
    if !s.open then s else s.(outbox := s.outbox + [frame])
  }

  /** A verb handed to the link; nothing becomes of one the link refuses. */
  function SendVerb(s: LaneState, verb: Verb): LaneState {
    var t := SendFrame(s, Sent(verb));
    if !s.open then t else t.(fates := t.fates + [Handed(verb)])
  }

  /** The socket is gone. */
  function DropLink(s: LaneState): LaneState {
    s.(open := false)
  }

  // --------------------------------------------------------------- the lane

  /** `attached[raw] = asked`: a key already there keeps its place. */
  function SetAttached(attached: seq<Attached>, raw: string, asked: int): seq<Attached> {
    if attached == [] then [Attached(raw, asked)]
    else if attached[0].raw == raw then [Attached(raw, asked)] + attached[1..]
    else [attached[0]] + SetAttached(attached[1..], raw, asked)
  }

  function WithoutAttached(attached: seq<Attached>, raw: string): seq<Attached> {
    if attached == [] then []
    else if attached[0].raw == raw then attached[1..]
    else [attached[0]] + WithoutAttached(attached[1..], raw)
  }

  /** The seq an attach asks for: its `from_seq` when that is a whole number of at least 1. */
  function Asked(from: Option<int>): (asked: int)
    ensures asked >= 1
  {
    if from.Some? && from.value >= 1 then from.value else 1
  }

  function AttachLane(s: LaneState, now: real, raw: string, from: Option<int>): LaneState {
    var asked := Asked(from);
    var t := s.(attached := SetAttached(s.attached, raw, asked), lastSeq := s.lastSeq[raw := asked - 1]);
    if t.open then SendFrame(t.(touched := now), Attach(raw, from)) else t
  }

  function DetachLane(s: LaneState, now: real, raw: string): LaneState {
    var t := s.(attached := WithoutAttached(s.attached, raw), lastSeq := s.lastSeq - {raw});
    if t.open then SendFrame(t.(touched := now), Detach(raw)) else t
  }

  /** `Lane.send`, for a verb sent while the lane is open. */
  function SendLane(s: LaneState, now: real, verb: Verb): LaneState {
    SendVerb(s.(touched := now, accepted := s.accepted + [verb]), verb)
  }

  /** `enqueue`: held until the lane is up, unless too many wait. */
  function EnqueueLane(s: LaneState, now: real, verb: Verb): LaneState {
    if |s.pending| >= QUEUE_LIMIT then s
    else
      s.(pending := s.pending + [Waiting(now, verb)], touched := now, accepted := s.accepted + [verb],
         expiry := if s.expiry.None? then Some(now + QUEUE_SECONDS) else s.expiry)
  }

  /** The verbs at the head that have waited their time out are answered `machine_unreachable`. */
  function FailOld(s: LaneState, now: real): LaneState
    decreases |s.pending|
  {
    if s.pending != [] && now - s.pending[0].since >= QUEUE_SECONDS then
      FailOld(s.(pending := s.pending[1..], fates := s.fates + [Failed(s.pending[0].verb)]), now)
    else s
  }

  function ExpireLane(s: LaneState, now: real): LaneState {
    var t := FailOld(s.(expiry := None), now);
    if t.pending == [] then t
    else
      var wait := QUEUE_SECONDS - (now - t.pending[0].since);
      t.(expiry := Some(now + if wait >= SHORTEST_WAIT then wait else SHORTEST_WAIT))
  }

  /** `last_seq.get(raw, asked - 1) + 1`. */
  function NextSeq(s: LaneState, a: Attached): int {
    if a.raw in s.lastSeq then s.lastSeq[a.raw] + 1 else a.asked
  }

  /** Every attached session again, from one past the last seq the viewer got. */
  function Reattach(s: LaneState, attached: seq<Attached>): LaneState
    decreases |attached|
  {
    if attached == [] then s
    else Reattach(SendFrame(s, Attach(attached[0].raw, Some(NextSeq(s, attached[0])))), attached[1..])
  }

  /** The backlog, in order. */
  function Drain(s: LaneState): LaneState
    decreases |s.pending|
  {
    if s.pending == [] then s else Drain(SendVerb(s.(pending := s.pending[1..]), s.pending[0].verb))
  }

  /** `_on_open`: the sessions again, then the backlog, on the lane's present link. */
  function OnOpen(s: LaneState, now: real): LaneState {
    Drain(Reattach(s, s.attached)).(expiry := None, touched := now)
  }

  /** `_serve`'s first step on the lane's own link: a fresh outbox, open, and `_on_open`. */
  function OpenLane(s: LaneState, now: real): LaneState {
    OnOpen(s.(open := true, outbox := []), now)
  }

  /** `_on_frame`, for a log event: its seq recorded and the event delivered. */
  function FrameLane(s: LaneState, now: real, raw: string, seqNo: int): LaneState {
    var last := if raw in s.lastSeq then s.lastSeq[raw] else 0;
    s.(touched := now, lastSeq := s.lastSeq[raw := if last >= seqNo then last else seqNo],
       delivered := s.delivered + [Shown(raw, seqNo)])
  }

  /** `relink`'s swap: a new link, not dialing yet. */
  function RelinkLane(s: LaneState): LaneState {
    if s.closed then s else s.(running := false, open := false, outbox := [])
  }

  /** The last step of `relink`, once the old socket has stopped; also `wake`. */
  function WakeLane(s: LaneState): LaneState {
    if s.closed then s else s.(running := true)
  }

  /** Made while its computer was parked, or just given a new link: not dialing yet. */
  predicate Dormant(s: LaneState) {
    !s.closed && !s.running
  }

  function FailAll(s: LaneState): LaneState
    decreases |s.pending|
  {
    if s.pending == [] then s
    else FailAll(s.(pending := s.pending[1..], fates := s.fates + [Failed(s.pending[0].verb)]))
  }

  /** `stop`, up to its own link's. */
  function StopLane(s: LaneState): LaneState {
    FailAll(s.(closed := true, expiry := None))
  }

  // ------------------------------------------------------------- the classes

  /** A socket that reconnects by itself, as far as a lane sees it. */
  class Link {
    var running: bool
    var open: bool
    var outbox: seq<Frame>

    constructor ()
      ensures !running && !open && outbox == []
    {
      running, open := false, false;
      outbox := [];
    }

    method Send(frame: Frame) returns (sent: bool)
      modifies this`outbox
      ensures sent == open
      ensures outbox == if open then old(outbox) + [frame] else old(outbox)
    {
      if !open {
        return false;
      }
      outbox := outbox + [frame];
      sent := true;
    }
  }

  class Lane {
    var attached: seq<Attached>
    var lastSeq: map<string, int>
    var pending: seq<Waiting>
    var touched: real
    var expiry: Option<real>
    var closed: bool
    var link: Link
    ghost var accepted: seq<Verb>
    ghost var fates: seq<Fate>
    ghost var delivered: seq<Shown>

    ghost function State(): LaneState
      reads this, link
    {
      LaneState(attached, lastSeq, pending, touched, expiry, closed, link.running, link.open, link.outbox, accepted,
                fates, delivered)
    }

    constructor (now: real, dial: bool)
      ensures fresh(link) && State() == LaneState([], map[], [], now, None, false, dial, false, [], [], [], [])
    {
      attached, lastSeq, pending, touched, expiry, closed := [], map[], [], now, None, false;
      accepted, fates, delivered := [], [], [];
      link := new Link();
      new;
      if dial {
        link.running := true;
      }
    }

    /** Hands a verb to the link. */
    method HandOver(verb: Verb)
      modifies this`fates, link`outbox
      ensures State() == SendVerb(old(State()), verb)
    {
      var sent := link.Send(Sent(verb));
      if sent {
        fates := fates + [Handed(verb)];
      }
    }

    /** `send`, for a verb. */
    method Send(now: real, verb: Verb)
      modifies this`touched, this`accepted, this`fates, link`outbox
      ensures State() == SendLane(old(State()), now, verb)
    {
      touched := now;
      accepted := accepted + [verb];
      HandOver(verb);
    }

    method AttachSession(now: real, raw: string, from: Option<int>)
      modifies this`attached, this`lastSeq, this`touched, link`outbox
      ensures State() == AttachLane(old(State()), now, raw, from)
    {
      var asked := Asked(from);
      attached := SetAttached(attached, raw, asked);
      lastSeq := lastSeq[raw := asked - 1];
      if link.open {
        touched := now;
        var _ := link.Send(Attach(raw, from));
      }
    }

    method DetachSession(now: real, raw: string)
      modifies this`attached, this`lastSeq, this`touched, link`outbox
      ensures State() == DetachLane(old(State()), now, raw)
    {
      attached := WithoutAttached(attached, raw);
      lastSeq := lastSeq - {raw};
      if link.open {
        touched := now;
        var _ := link.Send(Detach(raw));
      }
    }

    method Enqueue(now: real, verb: Verb) returns (queued: bool)
      modifies this`pending, this`touched, this`expiry, this`accepted
      ensures State() == EnqueueLane(old(State()), now, verb)
      ensures queued == (|old(pending)| < QUEUE_LIMIT)
    {
      if |pending| >= QUEUE_LIMIT {
        return false;
      }
      pending := pending + [Waiting(now, verb)];
      accepted := accepted + [verb];
      touched := now;
      if expiry.None? {
        expiry := Some(now + QUEUE_SECONDS);
      }
      queued := true;
    }

    method Expire(now: real)
      modifies this`expiry, this`pending, this`fates
      ensures State() == ExpireLane(old(State()), now)
    {
      expiry := None;
      while pending != [] && now - pending[0].since >= QUEUE_SECONDS
        invariant link == old(link) && FailOld(State(), now) == FailOld(old(State()).(expiry := None), now)
        invariant unchanged(this`attached, this`lastSeq, this`touched, this`closed, this`accepted, this`delivered)
                  && expiry == None
        decreases |pending|
      {
        fates := fates + [Failed(pending[0].verb)];
        pending := pending[1..];
      }
      if pending != [] {
        var wait := QUEUE_SECONDS - (now - pending[0].since);
        expiry := Some(now + if wait >= SHORTEST_WAIT then wait else SHORTEST_WAIT);
      }
    }

    /** `_on_open`, whichever socket opened. */
    method Opened(now: real)
      modifies this, link`outbox
      ensures link == old(link) && State() == OnOpen(old(State()), now)
    {
      assert attached[0..] == attached;
      for i := 0 to |attached|
        invariant link == old(link) && attached == old(attached)
        invariant Reattach(State(), attached[i..]) == Reattach(old(State()), old(attached))
      {
        assert attached[i..][1..] == attached[i + 1..];
        var a := attached[i];
        var from := if a.raw in lastSeq then lastSeq[a.raw] + 1 else a.asked;
        var _ := link.Send(Attach(a.raw, Some(from)));
      }
      assert attached[|attached|..] == [];
      while pending != []
        invariant link == old(link) && Drain(State()) == Drain(Reattach(old(State()), old(attached)))
        decreases |pending|
      {
        var verb := pending[0].verb;
        pending := pending[1..];
        HandOver(verb);
      }
      expiry := None;
      touched := now;
    }

    /** The socket opens: a fresh outbox, then the lane's own step, with nothing in between. */
    method Open(now: real)
      modifies this, link
      ensures link == old(link) && State() == OpenLane(old(State()), now)
    {
      link.open := true;
      link.outbox := [];
      Opened(now);
    }

    method Frame(now: real, raw: string, seqNo: int)
      modifies this`touched, this`lastSeq, this`delivered
      ensures State() == FrameLane(old(State()), now, raw, seqNo)
    {
      touched := now;
      var last := if raw in lastSeq then lastSeq[raw] else 0;
      lastSeq := lastSeq[raw := if last >= seqNo then last else seqNo];
      delivered := delivered + [Shown(raw, seqNo)];
    }

    /** `relink`: the lane keeps what it knows and swaps its socket. */
    method Relink()
      modifies this`link
      ensures State() == RelinkLane(old(State()))
      ensures if closed then link == old(link) else fresh(link)
    {
      if closed {
        return;
      }
      link := new Link();
    }

    /** `wake`, and what `relink` does once the old socket has stopped: the link dials. */
    method Wake()
      modifies link`running
      ensures State() == WakeLane(old(State()))
    {
      if !closed {
        link.running := true;
      }
    }

    method Stop()
      modifies this`closed, this`expiry, this`pending, this`fates
      ensures State() == StopLane(old(State()))
    {
      closed := true;
      expiry := None;
      while pending != []
        invariant link == old(link) && FailAll(State()) == FailAll(old(State()).(closed := true, expiry := None))
        invariant unchanged(this`attached, this`lastSeq, this`touched, this`accepted, this`delivered) && closed
                  && expiry == None
        decreases |pending|
      {
        fates := fates + [Failed(pending[0].verb)];
        pending := pending[1..];
      }
    }
  }
}
