/**
 The audit ledger's writer (core/tstd/audit_writer.py): what sessions record, buffered and queued,
 against the rows the append-only store ends up with (core/tstd/audit.py).
 */
module Audit {
  import opened Text

  type Sid = string

  /** One provider call as the cost tracker reports it, on the local day it was made; the ledger's entry for it. */
  datatype Call = Call(tier: string, day: string, prompt: nat, cached: Option<nat>, completion: nat, cost: real)
  datatype Entry = Entry(tier: string, day: string, prompt: nat, cached: nat, completion: nat, cost: real)

  /** A provider that reports no cached figure adds none. */
  function Ledger(call: Call): Entry {
    Entry(call.tier, call.day, call.prompt, if call.cached.Some? then call.cached.value else 0, call.completion,
          call.cost)
  }

  function Ledgers(calls: seq<Call>): seq<Entry> {
    seq(|calls|, i requires 0 <= i < |calls| => Ledger(calls[i]))
  }

  /**
   The store's tables as one append-only log, in the order of the inserts. A session's start row is
   written by its first attach; the store passes over the later ones, which the log still shows.
   */
  datatype Row =
    | StartRow(sid: Sid)
    | TurnRow(id: nat, sid: Sid, index: nat, summary: string)
    | CallRow(sid: Sid, turn: Option<nat>, entry: Entry, classifier: bool)
    | SteerRow(sid: Sid, message: string, index: nat)
    | NoteRow(sid: Sid, what: string)

  /** A unit of store work on the queue. */
  datatype Op =
    | AttachOp(sid: Sid)
    | TurnOp(sid: Sid, index: nat, summary: string, calls: seq<Call>)
    | CallsOp(sid: Sid, calls: seq<Call>)
    | ClassifierOp(sid: Sid, call: Call)
    | SteerOp(sid: Sid, message: string, index: nat)
    | NoteOp(sid: Sid, what: string)

  function CallRows(sid: Sid, turn: Option<nat>, calls: seq<Call>): seq<Row> {
    seq(|calls|, i requires 0 <= i < |calls| => CallRow(sid, turn, Ledger(calls[i]), false))
  }

  /** What an operation inserts, in order, when the next turn row gets number `id`. */
  function RowsOf(op: Op, id: nat): seq<Row> {
    match op
    case AttachOp(sid) => [StartRow(sid)]
    case TurnOp(sid, index, summary, calls) => [TurnRow(id, sid, index, summary)] + CallRows(sid, Some(id), calls)
    case CallsOp(sid, calls) => CallRows(sid, None, calls)
    case ClassifierOp(sid, call) => [CallRow(sid, None, Ledger(call), true)]
    case SteerOp(sid, message, index) => [SteerRow(sid, message, index)]
    case NoteOp(sid, what) => [NoteRow(sid, what)]
  }

  function TurnCount(rows: seq<Row>): nat {
    if rows == [] then 0
    else TurnCount(rows[..|rows| - 1]) + if rows[|rows| - 1].TurnRow? then 1 else 0
  }

  // ------------------------------------------------------------------- steps

  /**
   The writer: its buffers and its queue, and the store behind it with the rows it has and the rows
   failed writes lost.
   */
  datatype State = State(
    sessions: seq<Sid>,
    pending: map<Sid, seq<Call>>,
    counters: map<Sid, nat>,
    queue: seq<Op>,
    degraded: bool,
    told: seq<Sid>,
    rows: seq<Row>,
    lost: seq<Row>)

  /**
   `Drain(written)`: the drain task takes one operation, and its write fails after `written` inserts,
   or not at all.
   */
  datatype Event =
    | Attach(sid: Sid)
    | Record(sid: Sid, call: Call, classifier: bool)
    | Turn(sid: Sid, summary: string)
    | Steer(sid: Sid, message: string)
    | Ended(sid: Sid)
    | Note(sid: Sid, what: string)
    | Drain(written: nat)

  function PendingOf(s: State, sid: Sid): seq<Call> {
    if sid in s.pending then s.pending[sid] else []
  }

  function TurnsOf(s: State, sid: Sid): nat {
    if sid in s.counters then s.counters[sid] else 0
  }

  /** What an event puts on the queue. */
  function Queued(s: State, e: Event): seq<Op> {
    match e
    case Attach(sid) => [AttachOp(sid)]
    case Record(sid, call, classifier) => if classifier then [ClassifierOp(sid, call)] else []
    case Turn(sid, summary) => [TurnOp(sid, TurnsOf(s, sid) + 1, summary, PendingOf(s, sid))]
    case Steer(sid, message) => [SteerOp(sid, message, TurnsOf(s, sid) + 1)]
    case Ended(sid) => if PendingOf(s, sid) == [] then [] else [CallsOp(sid, PendingOf(s, sid))]
    case Note(sid, what) => [NoteOp(sid, what)]
    case _ => []
  }

  /** Who hears that the record is incomplete: the session of the failed write, or everyone. */
  function Targets(s: State, sid: Sid): seq<Sid> {
    if sid in s.sessions then [sid] else s.sessions
  }

  function Drained(s: State, written: nat): State {
    if s.queue == [] then s
    else
      var op, rest := s.queue[0], s.queue[1..];
      var rows := RowsOf(op, TurnCount(s.rows) + 1);
      if written >= |rows| then s.(queue := rest, rows := s.rows + rows, degraded := false)
      else
        s.(queue := rest, rows := s.rows + rows[..written], lost := s.lost + rows[written..], degraded := true,
           told := if s.degraded then s.told else s.told + Targets(s, op.sid))
  }

  function Step(s: State, e: Event): State {
    var queue := s.queue + Queued(s, e);
    match e
    case Attach(sid) =>
      s.(queue := queue, sessions := if sid in s.sessions then s.sessions else s.sessions + [sid])
    case Record(sid, call, classifier) =>
      if classifier then s.(queue := queue) else s.(pending := s.pending[sid := PendingOf(s, sid) + [call]])
    case Turn(sid, _) =>
      s.(queue := queue, counters := s.counters[sid := TurnsOf(s, sid) + 1], pending := s.pending - {sid})
    case Ended(sid) => s.(queue := queue, pending := s.pending - {sid})
    case Drain(written) => Drained(s, written)
    case _ => s.(queue := queue)
  }

  function Run(s: State, events: seq<Event>): State {
    if events == [] then s else Step(Run(s, events[..|events| - 1]), events[|events| - 1])
  }

  /** A writer just made over a store. */
  predicate Fresh(s: State) {
    s.pending == map[] && s.counters == map[] && s.queue == [] && s.lost == [] && !s.degraded
  }

  // -------------------------------------------------------------- projections

  /** What a table's reader picks out of the rows. */
  function Picked<A>(rows: seq<Row>, pick: Row -> Option<A>): seq<A> {
    if rows == [] then []
    else
      Picked(rows[..|rows| - 1], pick)
      + match pick(rows[|rows| - 1]) case None => [] case Some(a) => [a]
  }

  lemma {:induction false} PickedConcat<A>(a: seq<Row>, b: seq<Row>, pick: Row -> Option<A>)
    ensures Picked(a + b, pick) == Picked(a, pick) + Picked(b, pick)
  {
    if b == [] {
      assert a + b == a;
    } else {
      PickedConcat(a, b[..|b| - 1], pick);
      assert (a + b)[..|a + b| - 1] == a + b[..|b| - 1];
    }
  }

  /** A row without the number its turn row got. */
  function Unnumbered(r: Row): Row {
    match r
    case TurnRow(_, sid, index, summary) => TurnRow(0, sid, index, summary)
    case CallRow(sid, turn, entry, classifier) =>
      CallRow(sid, if turn.Some? then Some(0) else None, entry, classifier)
    case _ => r
  }

  ghost predicate Blind<A(!new)>(pick: Row -> Option<A>) {
    forall r :: pick(r) == pick(Unnumbered(r))
  }

  lemma {:induction false} PickedAlike<A>(a: seq<Row>, b: seq<Row>, pick: Row -> Option<A>)
    requires |a| == |b| && forall i | 0 <= i < |a| :: pick(a[i]) == pick(b[i])
    ensures Picked(a, pick) == Picked(b, pick)
  {
    if a == [] {
    } else {
      PickedAlike(a[..|a| - 1], b[..|b| - 1], pick);
    }
  }

  /** The rows the queued operations will insert, their turns not yet numbered. */
  function QueueRows(queue: seq<Op>): seq<Row> {
    if queue == [] then [] else RowsOf(queue[0], 0) + QueueRows(queue[1..])
  }

  lemma {:induction false} QueueRowsAppend(queue: seq<Op>, more: seq<Op>)
    ensures QueueRows(queue + more) == QueueRows(queue) + QueueRows(more)
  {
    hide RowsOf;
    if queue == [] {
      assert queue + more == more;
    } else {
      QueueRowsAppend(queue[1..], more);
      assert (queue + more)[1..] == queue[1..] + more;
    }
  }

  /** What is in the store or on its way there. */
  function Written(s: State): seq<Row> {
    s.rows + QueueRows(s.queue)
  }

  lemma NumbersAside<A(!new)>(op: Op, id: nat, pick: Row -> Option<A>)
    requires Blind(pick)
    ensures |RowsOf(op, id)| == |RowsOf(op, 0)|
    ensures forall i | 0 <= i < |RowsOf(op, id)| :: pick(RowsOf(op, id)[i]) == pick(RowsOf(op, 0)[i])
  {
    forall i | 0 <= i < |RowsOf(op, id)| ensures pick(RowsOf(op, id)[i]) == pick(RowsOf(op, 0)[i]) {
      assert Unnumbered(RowsOf(op, id)[i]) == Unnumbered(RowsOf(op, 0)[i]);
    }
  }

  /** Taking an operation off the queue changes nothing of what is picked, if no insert fails. */
  lemma DrainKeeps<A(!new)>(s: State, written: nat, pick: Row -> Option<A>)
    requires Blind(pick)
    ensures var t := Drained(s, written);
            && (t.lost == s.lost ==> Picked(Written(t), pick) == Picked(Written(s), pick))
            && multiset(Picked(Written(t), pick)) + multiset(Picked(t.lost, pick))
               == multiset(Picked(Written(s), pick)) + multiset(Picked(s.lost, pick))
  {
    hide Picked, RowsOf, TurnCount;
    if s.queue != [] {
      var op, rest := s.queue[0], QueueRows(s.queue[1..]);
      var rows, plain := RowsOf(op, TurnCount(s.rows) + 1), RowsOf(op, 0);
      NumbersAside(op, TurnCount(s.rows) + 1, pick);
      PickedAlike(rows, plain, pick);
      PickedConcat(s.rows, QueueRows(s.queue), pick);
      PickedConcat(plain, rest, pick);
      var t := Drained(s, written);
      PickedConcat(t.rows, rest, pick);
      if written >= |rows| {
        PickedConcat(s.rows, rows, pick);
        assert t.lost == s.lost;
        Stored(Picked(s.rows, pick), Picked(rows, pick), Picked(rest, pick), Picked(s.lost, pick));
      } else {
        PickedConcat(s.rows, rows[..written], pick);
        PickedConcat(s.lost, rows[written..], pick);
        PickedConcat(rows[..written], rows[written..], pick);
        assert rows[..written] + rows[written..] == rows;
        assert t.lost == s.lost + rows[written..] && |rows[written..]| > 0;
        Spilt(Picked(s.rows, pick), Picked(rows[..written], pick), Picked(rows[written..], pick),
              Picked(rest, pick), Picked(s.lost, pick));
      }
    }
  }

  lemma Stored<A>(rows: seq<A>, more: seq<A>, rest: seq<A>, lost: seq<A>)
    ensures (rows + more) + rest == rows + (more + rest)
    ensures multiset((rows + more) + rest) + multiset(lost) == multiset(rows + (more + rest)) + multiset(lost)
  {
  }

  lemma Spilt<A>(rows: seq<A>, more: seq<A>, gone: seq<A>, rest: seq<A>, lost: seq<A>)
    ensures multiset((rows + more) + rest) + multiset(lost + gone)
            == multiset(rows + ((more + gone) + rest)) + multiset(lost)
  {
  }

  lemma NothingQueued<A>(pick: Row -> Option<A>)
    ensures Picked(QueueRows([]), pick) == []
  {
  }

  lemma LostGrows(s: State, written: nat)
    ensures s.lost <= Drained(s, written).lost
  {
  }

  /** What one event adds to the rows picked is what it queues; only a failed write loses any. */
  lemma StepAdds<A(!new)>(s: State, e: Event, pick: Row -> Option<A>)
    requires Blind(pick)
    ensures var t, added := Step(s, e), Picked(QueueRows(Queued(s, e)), pick);
            && s.lost <= t.lost
            && (t.lost == s.lost ==> Picked(Written(t), pick) == Picked(Written(s), pick) + added)
            && multiset(Picked(Written(t), pick)) + multiset(Picked(t.lost, pick))
               == multiset(Picked(Written(s), pick)) + multiset(Picked(s.lost, pick)) + multiset(added)
  {
    hide Picked, QueueRows, Drained, Blind;
    if e.Drain? {
      assert Step(s, e) == Drained(s, e.written) && Queued(s, e) == [];
      NothingQueued(pick);
      DrainKeeps(s, e.written, pick);
      LostGrows(s, e.written);
    } else {
      QueueRowsAppend(s.queue, Queued(s, e));
      var t, more := Step(s, e), QueueRows(Queued(s, e));
      assert t.queue == s.queue + Queued(s, e) && t.rows == s.rows && t.lost == s.lost;
      assert Written(t) == Written(s) + more;
      PickedConcat(Written(s), more, pick);
      assert multiset(Picked(Written(s), pick) + Picked(more, pick))
             == multiset(Picked(Written(s), pick)) + multiset(Picked(more, pick));
    }
  }

  // ------------------------------------------------------------ model calls

  /** The model calls of a session: those of its turns, or the classifier's. */
  function EntryOf(sid: Sid, classifier: bool): Row -> Option<Entry> {
    (r: Row) => if r.CallRow? && r.sid == sid && r.classifier == classifier then Some(r.entry) else None
  }

  /** The calls recorded for a session over a run, as the ledger enters them. */
  function Recorded(events: seq<Event>, sid: Sid, classifier: bool): seq<Entry> {
    if events == [] then []
    else
      var e := events[|events| - 1];
      Recorded(events[..|events| - 1], sid, classifier)
      + if e.Record? && e.sid == sid && e.classifier == classifier then [Ledger(e.call)] else []
  }

  lemma {:induction false} PickedCalls(sid: Sid, turn: Option<nat>, calls: seq<Call>, of: Sid, classifier: bool)
    ensures Picked(CallRows(sid, turn, calls), EntryOf(of, classifier))
            == if sid == of && !classifier then Ledgers(calls) else []
  {
    if calls == [] {
    } else {
      hide Ledger;
      var n := |calls| - 1;
      PickedCalls(sid, turn, calls[..n], of, classifier);
      var rows, last := CallRows(sid, turn, calls), CallRow(sid, turn, Ledger(calls[n]), false);
      assert rows[..n] == CallRows(sid, turn, calls[..n]) && rows[n] == last;
      PickedLast(rows, EntryOf(of, classifier));
      assert calls == calls[..n] + [calls[n]];
      LedgersMore(calls[..n], calls[n]);
    }
  }

  lemma PickedLast<A>(rows: seq<Row>, pick: Row -> Option<A>)
    requires rows != []
    ensures var n := |rows| - 1;
            Picked(rows, pick) == Picked(rows[..n], pick) + if pick(rows[n]).Some? then [pick(rows[n]).value] else []
  {
  }

  /** Buffered calls are the session's own, not the classifier's. */
  function Buffered(s: State, sid: Sid, classifier: bool): seq<Entry> {
    if classifier then [] else Ledgers(PendingOf(s, sid))
  }

  lemma QueueOne(op: Op)
    ensures QueueRows([op]) == RowsOf(op, 0)
  {
    hide RowsOf;
    assert [op][1..] == [];
  }

  /** One event either records a call, which is then buffered or queued, or moves the buffer to the queue whole. */
  lemma EventAdds(s: State, e: Event, sid: Sid, classifier: bool)
    ensures Picked(QueueRows(Queued(s, e)), EntryOf(sid, classifier)) + Buffered(Step(s, e), sid, classifier)
            == Buffered(s, sid, classifier)
               + if e.Record? && e.sid == sid && e.classifier == classifier then [Ledger(e.call)] else []
  {
    hide Picked, QueueRows, RowsOf, CallRows, Ledgers, Ledger, EntryOf;
    var pick := EntryOf(sid, classifier);
    NothingQueued(pick);
    EmptyLedgers();
    match e
    case Record(of, call, true) =>
      QueueOne(ClassifierOp(of, call));
      ClassifierEntries(of, call, sid, classifier);
    case Record(of, call, false) =>
      LedgersMore(PendingOf(s, of), call);
    case Turn(of, summary) =>
      QueueOne(Queued(s, e)[0]);
      TurnEntries(of, TurnsOf(s, of) + 1, summary, PendingOf(s, of), sid, classifier);
    case Ended(of) =>
      if PendingOf(s, of) != [] {
        QueueOne(Queued(s, e)[0]);
        CallsEntries(of, PendingOf(s, of), sid, classifier);
      }
    case Steer(of, message) =>
      QueueOne(Queued(s, e)[0]);
      NoEntries(Queued(s, e)[0], sid, classifier);
    case Attach(of) =>
      QueueOne(Queued(s, e)[0]);
      NoEntries(Queued(s, e)[0], sid, classifier);
    case Note(of, what) =>
      QueueOne(Queued(s, e)[0]);
      NoEntries(Queued(s, e)[0], sid, classifier);
    case _ =>
  }

  lemma EmptyLedgers()
    ensures Ledgers([]) == []
  {
  }

  lemma LedgersMore(calls: seq<Call>, call: Call)
    ensures Ledgers(calls + [call]) == Ledgers(calls) + [Ledger(call)]
  {
  }

  lemma ClassifierEntries(of: Sid, call: Call, sid: Sid, classifier: bool)
    ensures Picked(RowsOf(ClassifierOp(of, call), 0), EntryOf(sid, classifier))
            == if of == sid && classifier then [Ledger(call)] else []
  {
  }

  lemma TurnEntries(of: Sid, index: nat, summary: string, calls: seq<Call>, sid: Sid, classifier: bool)
    ensures Picked(RowsOf(TurnOp(of, index, summary, calls), 0), EntryOf(sid, classifier))
            == if of == sid && !classifier then Ledgers(calls) else []
  {
    hide Ledgers, Picked, CallRows;
    var turn := TurnRow(0, of, index, summary);
    PickedCalls(of, Some(0), calls, sid, classifier);
    PickedConcat([turn], CallRows(of, Some(0), calls), EntryOf(sid, classifier));
    NotPicked(turn, EntryOf(sid, classifier));
  }

  lemma NotPicked<A>(row: Row, pick: Row -> Option<A>)
    requires pick(row) == None
    ensures Picked([row], pick) == []
  {
    assert [row][..0] == [] && Picked([row][..0], pick) == [];
  }

  lemma CallsEntries(of: Sid, calls: seq<Call>, sid: Sid, classifier: bool)
    ensures Picked(RowsOf(CallsOp(of, calls), 0), EntryOf(sid, classifier))
            == if of == sid && !classifier then Ledgers(calls) else []
  {
    hide Picked;
    PickedCalls(of, None, calls, sid, classifier);
  }

  lemma NoEntries(op: Op, sid: Sid, classifier: bool)
    requires op.AttachOp? || op.SteerOp? || op.NoteOp?
    ensures Picked(RowsOf(op, 0), EntryOf(sid, classifier)) == []
  {
  }

  /**
   Over any run, every recorded call is in exactly one place: stored, queued, buffered, or lost by a failed
   write. With no failed write the stored, queued and buffered ones are in the order they were recorded.
   */
  lemma {:induction false} CallsConserved(start: State, events: seq<Event>, sid: Sid, classifier: bool)
    requires Fresh(start)
    ensures var s, pick := Run(start, events), EntryOf(sid, classifier);
            var before, recorded := Picked(start.rows, pick), Recorded(events, sid, classifier);
            && (s.lost == [] ==>
                  Picked(Written(s), pick) + Buffered(s, sid, classifier) == before + recorded)
            && multiset(Picked(Written(s), pick)) + multiset(Picked(s.lost, pick))
               + multiset(Buffered(s, sid, classifier)) == multiset(before) + multiset(recorded)
    decreases |events|, 1
  {
    var s, pick := Run(start, events), EntryOf(sid, classifier);
    if events == [] {
      assert Written(start) == start.rows;
    } else {
      CallsConservedStep(start, events, sid, classifier);
    }
  }

  lemma {:induction false} CallsConservedStep(start: State, events: seq<Event>, sid: Sid, classifier: bool)
    requires Fresh(start) && events != []
    ensures var s, pick := Run(start, events), EntryOf(sid, classifier);
            var before, recorded := Picked(start.rows, pick), Recorded(events, sid, classifier);
            && (s.lost == [] ==>
                  Picked(Written(s), pick) + Buffered(s, sid, classifier) == before + recorded)
            && multiset(Picked(Written(s), pick)) + multiset(Picked(s.lost, pick))
               + multiset(Buffered(s, sid, classifier)) == multiset(before) + multiset(recorded)
    decreases |events|, 0
  {
    hide Picked, Step, Queued, QueueRows, Buffered, Written, Fresh, Ledger;
    var pick := EntryOf(sid, classifier);
    var was, e := events[..|events| - 1], events[|events| - 1];
    var r := Run(start, was);
    CallsConserved(start, was, sid, classifier);
    assert Blind(EntryOf(sid, classifier));
    StepAdds(r, e, pick);
    EventAdds(r, e, sid, classifier);
    var one := if e.Record? && e.sid == sid && e.classifier == classifier then [Ledger(e.call)] else [];
    var s, added := Step(r, e), Picked(QueueRows(Queued(r, e)), pick);
    Moved(Picked(Written(r), pick), added, Buffered(r, sid, classifier), Buffered(s, sid, classifier), one,
          Picked(start.rows, pick), Recorded(was, sid, classifier));
    Weighed(Picked(Written(r), pick), Picked(r.lost, pick), Buffered(r, sid, classifier),
            Picked(Written(s), pick), Picked(s.lost, pick), Buffered(s, sid, classifier),
            added, one, Picked(start.rows, pick), Recorded(was, sid, classifier));
  }

  lemma Weighed<A>(written: seq<A>, lost: seq<A>, buffer: seq<A>, after: seq<A>, gone: seq<A>, left: seq<A>,
          added: seq<A>, one: seq<A>, before: seq<A>, recorded: seq<A>)
    requires multiset(after) + multiset(gone) == multiset(written) + multiset(lost) + multiset(added)
    requires added + left == buffer + one
    requires multiset(written) + multiset(lost) + multiset(buffer) == multiset(before) + multiset(recorded)
    ensures multiset(after) + multiset(gone) + multiset(left) == multiset(before) + multiset(recorded + one)
  {
    var all := multiset(after) + multiset(gone) + multiset(left);
    assert all == multiset(written) + multiset(lost) + (multiset(added) + multiset(left));
    assert multiset(added) + multiset(left) == multiset(added + left) == multiset(buffer) + multiset(one);
    assert all == (multiset(written) + multiset(lost) + multiset(buffer)) + multiset(one);
    assert all == multiset(before) + (multiset(recorded) + multiset(one));
  }

  lemma Moved<A>(written: seq<A>, added: seq<A>, buffer: seq<A>, left: seq<A>, one: seq<A>, before: seq<A>,
          recorded: seq<A>)
    requires added + left == buffer + one
    ensures written + buffer == before + recorded ==> (written + added) + left == before + (recorded + one)
  {
    assert (written + added) + left == written + (added + left);
    assert written + (buffer + one) == (written + buffer) + one;
    assert (before + recorded) + one == before + (recorded + one);
  }

  /**
   Once nothing is buffered, queued or lost, a session's model-call rows are exactly the calls recorded
   for it, each once, in order.
   */
  lemma EveryCallStored(start: State, events: seq<Event>, sid: Sid, classifier: bool)
    requires Fresh(start)
    requires var s := Run(start, events); PendingOf(s, sid) == [] && s.queue == [] && s.lost == []
    ensures Picked(Run(start, events).rows, EntryOf(sid, classifier))
            == Picked(start.rows, EntryOf(sid, classifier)) + Recorded(events, sid, classifier)
  {
    hide Run, Picked, Recorded;
    var s := Run(start, events);
    CallsConserved(start, events, sid, classifier);
    assert Written(s) == s.rows;
    assert Buffered(s, sid, classifier) == [];
    assert Picked(s.rows, EntryOf(sid, classifier)) + [] == Picked(s.rows, EntryOf(sid, classifier));
  }

  /** The calls recorded for a session since its last turn came to an end, one way or the other. */
  function SinceTurn(events: seq<Event>, sid: Sid): seq<Call> {
    if events == [] then []
    else
      var before, e := SinceTurn(events[..|events| - 1], sid), events[|events| - 1];
      if (e.Turn? || e.Ended?) && e.sid == sid then []
      else if e.Record? && e.sid == sid && !e.classifier then before + [e.call]
      else before
  }

  /** What a turn's row links to is what was recorded since the turn before it ended. */
  lemma {:induction false} TurnTakes(start: State, events: seq<Event>, sid: Sid)
    requires Fresh(start)
    ensures PendingOf(Run(start, events), sid) == SinceTurn(events, sid)
  {
    if events == [] {
      NoneYet(start, sid);
    } else {
      TurnTakes(start, events[..|events| - 1], sid);
      var s := Run(start, events[..|events| - 1]);
      var e := events[|events| - 1];
      assert PendingOf(Step(s, e), sid) == if (e.Turn? || e.Ended?) && e.sid == sid then []
             else if e.Record? && e.sid == sid && !e.classifier then PendingOf(s, sid) + [e.call]
             else PendingOf(s, sid) by {
        hide RowsOf, Targets;
      }
    }
  }

  lemma NoneYet(s: State, sid: Sid)
    requires Fresh(s)
    ensures PendingOf(s, sid) == []
  {
  }

  // ---------------------------------------------------------- turns and steers

  datatype Mark = Done(index: nat) | Steered(message: string, index: nat)

  function MarkOf(sid: Sid): Row -> Option<Mark> {
    (r: Row) => if r.TurnRow? && r.sid == sid then Some(Done(r.index))
      else if r.SteerRow? && r.sid == sid then Some(Steered(r.message, r.index))
      else None
  }

  function Completed(events: seq<Event>, sid: Sid): nat {
    if events == [] then 0
    else
      Completed(events[..|events| - 1], sid) + if events[|events| - 1] .Turn? && events[|events| - 1].sid == sid
                then 1 else 0
  }

  /** A session's turns and steers over a run, a turn numbered by how many came before it. */
  function Timeline(events: seq<Event>, sid: Sid): seq<Mark> {
    if events == [] then []
    else
      var was, e := events[..|events| - 1], events[|events| - 1];
      Timeline(was, sid)
      + if e.Turn? && e.sid == sid then [Done(Completed(was, sid) + 1)]
        else if e.Steer? && e.sid == sid then [Steered(e.message, Completed(was, sid) + 1)]
        else []
  }

  lemma {:induction false} CountersCount(start: State, events: seq<Event>, sid: Sid)
    requires Fresh(start)
    ensures TurnsOf(Run(start, events), sid) == Completed(events, sid)
  {
    if events == [] {
      assert TurnsOf(start, sid) == 0;
    } else {
      CountersCount(start, events[..|events| - 1], sid);
      var s := Run(start, events[..|events| - 1]);
      var e := events[|events| - 1];
      assert TurnsOf(Step(s, e), sid) == TurnsOf(s, sid) + if e.Turn? && e.sid == sid then 1 else 0 by {
        hide RowsOf, TurnCount, Queued;
      }
    }
  }

  lemma {:induction false} NoMarks(sid: Sid, turn: Option<nat>, calls: seq<Call>, of: Sid)
    ensures Picked(CallRows(sid, turn, calls), MarkOf(of)) == []
  {
    if calls == [] {
    } else {
      var n := |calls| - 1;
      NoMarks(sid, turn, calls[..n], of);
      assert CallRows(sid, turn, calls)[..n] == CallRows(sid, turn, calls[..n]);
    }
  }

  lemma EventMarks(s: State, e: Event, sid: Sid)
    ensures Picked(QueueRows(Queued(s, e)), MarkOf(sid))
            == if e.Turn? && e.sid == sid then [Done(TurnsOf(s, sid) + 1)]
               else if e.Steer? && e.sid == sid then [Steered(e.message, TurnsOf(s, sid) + 1)]
               else []
  {
    if Queued(s, e) != [] {
      QueueOne(Queued(s, e)[0]);
    }
    match e
    case Turn(of, summary) =>
      var op := Queued(s, e)[0];
      NoMarks(of, Some(0), op.calls, sid);
      PickedConcat([TurnRow(0, of, op.index, summary)], CallRows(of, Some(0), op.calls), MarkOf(sid));
    case Ended(of) =>
      NoMarks(of, None, PendingOf(s, of), sid);
    case _ =>
  }

  lemma NoTimeline(sid: Sid)
    ensures Timeline([], sid) == []
  {
  }

  /** The turn and steer rows of a session, stored and queued, are its timeline while no write fails. */
  lemma {:induction false} MarksKept(start: State, events: seq<Event>, sid: Sid)
    requires Fresh(start) && Run(start, events).lost == []
    ensures Picked(Written(Run(start, events)), MarkOf(sid)) == Picked(start.rows, MarkOf(sid)) + Timeline(events, sid)
  {
    hide Step, Queued, QueueRows, Picked, Timeline, Completed, Written, TurnsOf, Fresh;
    if events == [] {
      WrittenFresh(start);
      NoTimeline(sid);
    } else {
      var was, e := events[..|events| - 1], events[|events| - 1];
      assert events == was + [e];
      TimelineMore(was, e, sid);
      var r := Run(start, was);
      StepAdds(r, e, MarkOf(sid));
      MarksKept(start, was, sid);
      EventMarks(r, e, sid);
      CountersCount(start, was, sid);
      Regroup(Picked(start.rows, MarkOf(sid)), Timeline(was, sid), Picked(QueueRows(Queued(r, e)), MarkOf(sid)));
    }
  }

  lemma Regroup<A>(a: seq<A>, b: seq<A>, c: seq<A>)
    ensures (a + b) + c == a + (b + c)
  {
  }

  lemma WrittenFresh(s: State)
    requires Fresh(s)
    ensures Written(s) == s.rows
  {
  }

  function Dones(marks: seq<Mark>): nat {
    if marks == [] then 0 else Dones(marks[..|marks| - 1]) + if marks[|marks| - 1].Done? then 1 else 0
  }

  ghost predicate InNumber(marks: seq<Mark>) {
    forall i | 0 <= i < |marks| :: marks[i].index == Dones(marks[..i]) + 1
  }

  lemma InNumberMore(marks: seq<Mark>, m: Mark)
    requires InNumber(marks) && m.index == Dones(marks) + 1
    ensures InNumber(marks + [m]) && Dones(marks + [m]) == Dones(marks) + if m.Done? then 1 else 0
  {
    var more := marks + [m];
    assert more[..|marks|] == marks;
    forall i | 0 <= i < |more| ensures more[i].index == Dones(more[..i]) + 1 {
      if i < |marks| {
        assert more[..i] == marks[..i];
      }
    }
  }

  /** Turns are numbered 1, 2, 3, ... and a steer takes the number the next turn will. */
  lemma {:induction false} TimelineNumbers(events: seq<Event>, sid: Sid)
    ensures InNumber(Timeline(events, sid)) && Dones(Timeline(events, sid)) == Completed(events, sid)
  {
    hide Dones, InNumber;
    if events == [] {
      NoMarksYet();
    } else {
      var was, e := events[..|events| - 1], events[|events| - 1];
      TimelineNumbers(was, sid);
      var n := Completed(was, sid) + 1;
      if e.Turn? && e.sid == sid {
        InNumberMore(Timeline(was, sid), Done(n));
      } else if e.Steer? && e.sid == sid {
        InNumberMore(Timeline(was, sid), Steered(e.message, n));
      } else {
        assert Timeline(was, sid) + [] == Timeline(was, sid);
      }
    }
  }

  lemma NoMarksYet()
    ensures InNumber([]) && Dones([]) == 0
  {
  }

  lemma {:induction false} DonesBetween(marks: seq<Mark>, i: nat, j: nat)
    requires i <= j <= |marks| && forall k | i <= k < j :: marks[k].Steered?
    ensures Dones(marks[..j]) == Dones(marks[..i])
  {
    if i < j {
      DonesBetween(marks, i, j - 1);
      assert marks[..j][..j - 1] == marks[..j - 1];
    }
  }

  /** A steer carries the number of the next turn of its session to complete. */
  lemma SteerNextTurn(events: seq<Event>, sid: Sid, i: nat, j: nat)
    requires i < j < |Timeline(events, sid)|
    requires Timeline(events, sid)[j].Done? && forall k | i <= k < j :: Timeline(events, sid)[k].Steered?
    ensures Timeline(events, sid)[i].index == Timeline(events, sid)[j].index
  {
    hide Timeline, Completed;
    TimelineNumbers(events, sid);
    DonesBetween(Timeline(events, sid), i, j);
  }

  /** A turn that is cancelled completes nothing: its steer carries the number of the turn after it. */
  lemma SteerOutlivesTurn(events: seq<Event>, sid: Sid, message: string, later: string, summary: string)
    ensures var n := Completed(events, sid) + 1;
            Timeline(events + [Steer(sid, message), Ended(sid), Steer(sid, later), Turn(sid, summary)], sid)
            == Timeline(events, sid) + [Steered(message, n), Steered(later, n), Done(n)]
  {
    hide Timeline, Completed;
    var one := events + [Steer(sid, message)];
    var two := one + [Ended(sid)];
    var three := two + [Steer(sid, later)];
    TimelineMore(events, Steer(sid, message), sid);
    TimelineMore(one, Ended(sid), sid);
    TimelineMore(two, Steer(sid, later), sid);
    TimelineMore(three, Turn(sid, summary), sid);
    assert three + [Turn(sid, summary)]
           == events + [Steer(sid, message), Ended(sid), Steer(sid, later), Turn(sid, summary)];
  }

  lemma TimelineMore(events: seq<Event>, e: Event, sid: Sid)
    ensures Completed(events + [e], sid) == Completed(events, sid) + if e.Turn? && e.sid == sid then 1 else 0
    ensures Timeline(events + [e], sid)
            == Timeline(events, sid)
               + if e.Turn? && e.sid == sid then [Done(Completed(events, sid) + 1)]
                 else if e.Steer? && e.sid == sid then [Steered(e.message, Completed(events, sid) + 1)]
                 else []
  {
    assert (events + [e])[..|events|] == events;
  }

  // -------------------------------------------------------------------- links

  ghost predicate TurnsNumbered(rows: seq<Row>) {
    forall i | 0 <= i < |rows| && rows[i].TurnRow? :: rows[i].id == TurnCount(rows[..i]) + 1
  }

  /** `r` is a turn's own call row, or has no turn. */
  predicate LinkedIn(r: Row, rows: seq<Row>) {
    r.CallRow? && r.turn.Some? ==>
      !r.classifier && exists j | 0 <= j < |rows| ::
        rows[j].TurnRow? && rows[j].id == r.turn.value && rows[j].sid == r.sid
  }

  /** Turn rows are numbered apart, and a call row names a turn row of its own session, stored before it. */
  ghost predicate Linked(rows: seq<Row>) {
    TurnsNumbered(rows) && forall i | 0 <= i < |rows| :: LinkedIn(rows[i], rows[..i])
  }

  lemma NumberedMore(rows: seq<Row>, op: Op, written: nat)
    requires TurnsNumbered(rows) && written <= |RowsOf(op, TurnCount(rows) + 1)|
    ensures TurnsNumbered(rows + RowsOf(op, TurnCount(rows) + 1)[..written])
  {
    var all := rows + RowsOf(op, TurnCount(rows) + 1)[..written];
    forall i | 0 <= i < |all| && all[i].TurnRow? ensures all[i].id == TurnCount(all[..i]) + 1 {
      if i < |rows| {
        assert all[..i] == rows[..i];
      } else {
        assert i == |rows| && all[..i] == rows;
      }
    }
  }

  lemma LinksMore(rows: seq<Row>, op: Op, id: nat, written: nat)
    requires (forall i | 0 <= i < |rows| :: LinkedIn(rows[i], rows[..i])) && written <= |RowsOf(op, id)|
    ensures var all := rows + RowsOf(op, id)[..written]; forall i | 0 <= i < |all| :: LinkedIn(all[i], all[..i])
  {
    hide *;
    var more := RowsOf(op, id)[..written];
    var all := rows + more;
    forall i | 0 <= i < |all| ensures LinkedIn(all[i], all[..i]) {
      if i < |rows| {
        assert all[..i] == rows[..i];
      } else {
        assert all[..i] == rows + RowsOf(op, id)[..i - |rows|];
        NewRowLinked(rows, op, id, i - |rows|);
      }
    }
  }

  lemma NewRowLinked(rows: seq<Row>, op: Op, id: nat, i: nat)
    requires i < |RowsOf(op, id)|
    ensures LinkedIn(RowsOf(op, id)[i], rows + RowsOf(op, id)[..i])
  {
    if op.TurnOp? && i > 0 {
      assert (rows + RowsOf(op, id)[..i])[|rows|] == TurnRow(id, op.sid, op.index, op.summary);
    }
  }

  /** No run breaks a link: not a failed write, not a turn that never completes. */
  lemma {:induction false} LinksHold(start: State, events: seq<Event>)
    requires Linked(start.rows)
    ensures Linked(Run(start, events).rows)
  {
    hide Linked, RowsOf, Step;
    if events == [] {
    } else {
      var was, e := events[..|events| - 1], events[|events| - 1];
      LinksHold(start, was);
      StepLinked(Run(start, was), e);
    }
  }

  lemma StepLinked(s: State, e: Event)
    requires Linked(s.rows)
    ensures Linked(Step(s, e).rows)
  {
    hide Queued, Targets;
    if e.Drain? && s.queue != [] {
      var rows := RowsOf(s.queue[0], TurnCount(s.rows) + 1);
      var written := if e.written >= |rows| then |rows| else e.written;
      assert Linked(s.rows + RowsOf(s.queue[0], TurnCount(s.rows) + 1)[..written]) by {
        hide TurnsNumbered, TurnCount, RowsOf, LinkedIn;
        NumberedMore(s.rows, s.queue[0], written);
        LinksMore(s.rows, s.queue[0], TurnCount(s.rows) + 1, written);
      }
      assert rows[..|rows|] == rows;
    }
  }

  // ----------------------------------------------------------------- failures

  /** The drain found nothing to do, or wrote all of it. */
  predicate Wrote(s: State, e: Event) {
    e.Drain? ==> s.queue == [] || e.written >= |RowsOf(s.queue[0], 0)|
  }

  /** Every write of the run went through. */
  ghost predicate WritesAll(start: State, events: seq<Event>) {
    forall i | 0 <= i < |events| :: Wrote(Run(start, events[..i]), events[i])
  }

  lemma LostStep(s: State, e: Event)
    ensures Step(s, e).lost == [] <==> s.lost == [] && Wrote(s, e)
  {
    hide Targets, TurnCount;
    if e.Drain? && s.queue != [] {
      assert |RowsOf(s.queue[0], TurnCount(s.rows) + 1)| == |RowsOf(s.queue[0], 0)|;
    }
  }

  /** Something is lost exactly when some write failed. */
  lemma {:induction false} LostExactly(start: State, events: seq<Event>)
    requires start.lost == []
    ensures Run(start, events).lost == [] <==> WritesAll(start, events)
  {
    hide Step, Wrote;
    if events == [] {
      assert WritesAll(start, []);
    } else {
      var n := |events| - 1;
      LostExactly(start, events[..n]);
      LostStep(Run(start, events[..n]), events[n]);
      WritesMore(start, events);
    }
  }

  lemma WritesMore(start: State, events: seq<Event>)
    requires events != []
    ensures var n := |events| - 1;
            WritesAll(start, events) <==> WritesAll(start, events[..n]) && Wrote(Run(start, events[..n]), events[n])
  {
    hide Run, Wrote;
    var n := |events| - 1;
    var was := events[..n];
    assert forall i | 0 <= i < n :: was[..i] == events[..i] && was[i] == events[i];
    if WritesAll(start, events) {
      forall i | 0 <= i < n ensures Wrote(Run(start, was[..i]), was[i]) {
        assert Wrote(Run(start, events[..i]), events[i]);
      }
    }
  }

  // ------------------------------------------------------------- who is told

  /** A write that was tried and failed; one that went through. */
  predicate Failed(s: State, e: Event) {
    e.Drain? && s.queue != [] && e.written < |RowsOf(s.queue[0], 0)|
  }

  predicate Finished(s: State, e: Event) {
    e.Drain? && s.queue != [] && e.written >= |RowsOf(s.queue[0], 0)|
  }

  ghost predicate FailedAt(start: State, events: seq<Event>, i: nat)
    requires i < |events|
  {
    Failed(Run(start, events[..i]), events[i])
  }

  /** Some write after `i` and before `n` went through. */
  ghost predicate Mended(start: State, events: seq<Event>, i: nat, n: nat)
    requires n <= |events|
  {
    exists k | i < k < n :: Finished(Run(start, events[..k]), events[k])
  }

  /** Failure `o` starts a streak: every failure before it was mended. */
  ghost predicate Opens(start: State, events: seq<Event>, o: nat)
    requires o < |events|
  {
    FailedAt(start, events, o) && forall j | 0 <= j < o && FailedAt(start, events, j) :: Mended(start, events, j, o)
  }

  /** The session whose write failed. */
  ghost function Loser(start: State, events: seq<Event>, i: nat): Sid
    requires i < |events| && FailedAt(start, events, i)
  {
    Run(start, events[..i]).queue[0].sid
  }

  /** `who` was attached by then, and the failure is its own or that of a session no one attached. */
  ghost predicate Hears(start: State, events: seq<Event>, o: nat, who: Sid)
    requires o < |events| && FailedAt(start, events, o)
  {
    && Attach(who) in events[..o]
    && (who == Loser(start, events, o) || Attach(Loser(start, events, o)) !in events[..o])
  }

  /** A writer no session has attached to, and that told no one. */
  predicate Unattached(s: State) {
    Fresh(s) && s.sessions == [] && s.told == []
  }

  lemma RunNext(start: State, events: seq<Event>, n: nat)
    requires n < |events|
    ensures Run(start, events[..n + 1]) == Step(Run(start, events[..n]), events[n])
  {
    hide Step;
    assert events[..n + 1][..n] == events[..n];
  }

  lemma StepTells(s: State, e: Event)
    ensures Step(s, e).degraded == (Failed(s, e) || (s.degraded && !Finished(s, e)))
    ensures Step(s, e).told
            == s.told + if Failed(s, e) && !s.degraded then Targets(s, s.queue[0].sid) else []
  {
    hide TurnCount, Queued, Targets;
    if e.Drain? && s.queue != [] {
      assert |RowsOf(s.queue[0], TurnCount(s.rows) + 1)| == |RowsOf(s.queue[0], 0)|;
    }
  }

  lemma StepSessions(s: State, e: Event, who: Sid)
    ensures who in Step(s, e).sessions <==> who in s.sessions || e == Attach(who)
  {
    hide RowsOf, TurnCount, Queued;
  }

  lemma {:induction false} SessionsAttached(start: State, events: seq<Event>, who: Sid)
    requires start.sessions == []
    ensures who in Run(start, events).sessions <==> Attach(who) in events
  {
    hide Step;
    if events == [] {
    } else {
      var n := |events| - 1;
      SessionsAttached(start, events[..n], who);
      StepSessions(Run(start, events[..n]), events[n], who);
      assert events == events[..n] + [events[n]];
    }
  }

  lemma HearersAre(start: State, events: seq<Event>, o: nat, who: Sid)
    requires Unattached(start) && o < |events| && FailedAt(start, events, o)
    ensures who in Targets(Run(start, events[..o]), Loser(start, events, o)) <==> Hears(start, events, o, who)
  {
    hide Run, Failed, Loser;
    SessionsAttached(start, events[..o], who);
    SessionsAttached(start, events[..o], Loser(start, events, o));
  }

  lemma RunNone(start: State, events: seq<Event>)
    ensures Run(start, events[..0]) == start
  {
  }

  /** The writer is degraded while a failure has no completed write behind it. */
  lemma {:induction false} DegradedWhen(start: State, events: seq<Event>, n: nat)
    requires Fresh(start) && n <= |events|
    ensures Run(start, events[..n]).degraded
            <==> exists j | 0 <= j < n :: FailedAt(start, events, j) && !Mended(start, events, j, n)
  {
    hide Step, Failed;
    if n == 0 {
      RunNone(start, events);
    } else {
      var m := n - 1;
      var s := Run(start, events[..m]);
      DegradedWhen(start, events, m);
      RunNext(start, events, m);
      StepTells(s, events[m]);
      forall j | 0 <= j <= m
        ensures Mended(start, events, j, n) <==> Mended(start, events, j, m) || (j < m && Finished(s, events[m]))
      {
        assert Mended(start, events, j, m + 1)
               <==> Mended(start, events, j, m) || (j < m && Finished(Run(start, events[..m]), events[m])) by {
          hide Run, Finished;
        }
      }
      assert !Mended(start, events, m, m);
      if FailedAt(start, events, m) {
        assert !Mended(start, events, m, n);
      }
    }
  }

  /** A write tells someone exactly when its failure opens a streak. */
  lemma TellsWhen(start: State, events: seq<Event>, i: nat)
    requires Fresh(start) && i < |events|
    ensures Run(start, events[..i + 1]).told
            == Run(start, events[..i]).told
               + if Opens(start, events, i) then Targets(Run(start, events[..i]), Loser(start, events, i)) else []
  {
    hide Run, Step, Mended, Targets, Failed, Finished;
    RunNext(start, events, i);
    StepTells(Run(start, events[..i]), events[i]);
    DegradedWhen(start, events, i);
  }

  /** The sessions told over a run are the hearers of the failures that open a streak, and no others. */
  lemma {:induction false} ToldUpTo(start: State, events: seq<Event>, n: nat, who: Sid)
    requires Unattached(start) && n <= |events|
    ensures who in Run(start, events[..n]).told
            <==> exists o | 0 <= o < n :: Opens(start, events, o) && Hears(start, events, o, who)
  {
    hide Run, Hears, Targets, Fresh, Failed, Mended, Loser, FailedAt;
    if n == 0 {
      RunNone(start, events);
    } else {
      ToldUpTo(start, events, n - 1, who);
      TellsWhen(start, events, n - 1);
      if Opens(start, events, n - 1) {
        HearersAre(start, events, n - 1, who);
      }
    }
  }

  lemma ToldExactly(start: State, events: seq<Event>, who: Sid)
    requires Unattached(start)
    ensures who in Run(start, events).told
            <==> exists o | 0 <= o < |events| :: Opens(start, events, o) && Hears(start, events, o, who)
  {
    hide *;
    assert events[..|events|] == events;
    ToldUpTo(start, events, |events|, who);
  }

  /** A streak tells its opener's hearers and, until a write goes through, no one else. */
  lemma {:induction false} StreakTells(start: State, events: seq<Event>, o: nat, n: nat)
    requires Fresh(start) && o < n <= |events| && Opens(start, events, o) && !Mended(start, events, o, n)
    ensures Run(start, events[..n]).told
            == Run(start, events[..o]).told + Targets(Run(start, events[..o]), Loser(start, events, o))
    decreases n
  {
    hide Run, Targets, Fresh, Failed, Finished, Loser;
    TellsWhen(start, events, n - 1);
    if n - 1 == o {
    } else {
      StreakTells(start, events, o, n - 1);
    }
  }

  /** Every failure is in a streak. */
  lemma {:induction false} StreakOf(start: State, events: seq<Event>, i: nat)
    requires i < |events| && FailedAt(start, events, i)
    ensures exists o | 0 <= o <= i :: Opens(start, events, o) && !Mended(start, events, o, i)
    decreases i
  {
    hide Run;
    if Opens(start, events, i) {
    } else {
      var j :| 0 <= j < i && FailedAt(start, events, j) && !Mended(start, events, j, i);
      StreakOf(start, events, j);
    }
  }

  /** No failure is in two. */
  lemma OneStreak(start: State, events: seq<Event>, o: nat, p: nat, i: nat)
    requires o <= i < |events| && p <= i
    requires Opens(start, events, o) && !Mended(start, events, o, i)
    requires Opens(start, events, p) && !Mended(start, events, p, i)
    ensures o == p
  {
    hide Run, Failed, Finished;
  }

  /**
   A session that loses a row is told within the streak if and only if it hears the failure that
   opened it: it was attached by then, and that failure was its own or of a session no one attached.
   */
  lemma LossUntold(start: State, events: seq<Event>, o: nat, i: nat)
    requires Unattached(start) && o <= i < |events| && FailedAt(start, events, i)
    requires Opens(start, events, o) && !Mended(start, events, o, i)
    ensures var before, after := Run(start, events[..o]).told, Run(start, events[..i + 1]).told;
            && before <= after
            && (Loser(start, events, i) in after[|before|..] <==> Hears(start, events, o, Loser(start, events, i)))
  {
    hide Run, Hears, Targets, Fresh;
    StreakTells(start, events, o, i + 1);
    HearersAre(start, events, o, Loser(start, events, i));
  }

  /** Two sessions on the writer's list, nothing waiting, nothing lost. */
  predicate BothOn(s: State, one: Sid, other: Sid) {
    s.sessions == [one, other] && s.queue == [] && !s.degraded && s.lost == [] && s.told == []
  }

  lemma BothLose(s: State, one: Sid, other: Sid)
    requires BothOn(s, one, other)
    ensures var t := Run(s, [Note(one, "a"), Note(other, "b"), Drain(0), Drain(0)]);
            t.lost == [NoteRow(one, "a"), NoteRow(other, "b")] && t.told == [one]
  {
    hide Run, TurnCount;
    RunFour(s, Note(one, "a"), Note(other, "b"), Drain(0), Drain(0));
    var t := Step(Step(s, Note(one, "a")), Note(other, "b"));
    assert t.queue == [NoteOp(one, "a"), NoteOp(other, "b")];
  }

  /** Two sessions lose a row one after the other: the second hears nothing. */
  lemma SecondSessionUntold(start: State, one: Sid, other: Sid)
    requires Unattached(start) && one != other
    ensures var s := Run(start, [Attach(one), Attach(other), Drain(1), Drain(1)]
                                + [Note(one, "a"), Note(other, "b"), Drain(0), Drain(0)]);
            s.lost == [NoteRow(one, "a"), NoteRow(other, "b")] && s.told == [one]
  {
    var attached, noted := [Attach(one), Attach(other), Drain(1), Drain(1)],
      [Note(one, "a"), Note(other, "b"), Drain(0), Drain(0)];
    assert BothOn(Run(start, [Attach(one), Attach(other), Drain(1), Drain(1)]), one, other) by {
      hide Run, TurnCount;
      RunFour(start, Attach(one), Attach(other), Drain(1), Drain(1));
      var s := Step(Step(start, Attach(one)), Attach(other));
      assert s.queue == [AttachOp(one), AttachOp(other)];
      assert s.sessions == [one, other] && !s.degraded && s.lost == [] && s.told == [];
    }
    BothLose(Run(start, attached), one, other);
    RunOn(start, attached, noted);
  }

  lemma RunFour(s: State, a: Event, b: Event, c: Event, d: Event)
    ensures Run(s, [a, b, c, d]) == Step(Step(Step(Step(s, a), b), c), d)
  {
    hide Step, Run;
    RunTwo(s, a, b);
    RunTwo(Run(s, [a, b]), c, d);
    RunOn(s, [a, b], [c, d]);
    assert [a, b] + [c, d] == [a, b, c, d];
  }

  lemma RunTwo(s: State, a: Event, b: Event)
    ensures Run(s, [a, b]) == Step(Step(s, a), b)
  {
    hide Step;
    assert [a, b][..1] == [a] && [a][..0] == [];
    assert Run(s, []) == s && Run(s, [a]) == Step(s, a);
    assert Run(s, [a, b]) == Step(Run(s, [a, b][..1]), [a, b][1]);
  }

  // ------------------------------------------------------------------- closing

  lemma {:induction false} RunOn(start: State, events: seq<Event>, more: seq<Event>)
    ensures Run(Run(start, events), more) == Run(start, events + more)
  {
    hide Step;
    if more == [] {
      assert events + more == events;
    } else {
      RunOn(start, events, more[..|more| - 1]);
      assert (events + more)[..|events + more| - 1] == events + more[..|more| - 1];
    }
  }

  /** Closing records nothing: it ends what is buffered and drains. */
  predicate Closing(events: seq<Event>) {
    forall e | e in events :: e.Ended? || e.Drain?
  }

  lemma {:induction false} ClosingRecords(events: seq<Event>, more: seq<Event>, sid: Sid, classifier: bool)
    requires Closing(more)
    ensures Recorded(events + more, sid, classifier) == Recorded(events, sid, classifier)
  {
    if more == [] {
      assert events + more == events;
    } else {
      ClosingRecords(events, more[..|more| - 1], sid, classifier);
      assert (events + more)[..|events + more| - 1] == events + more[..|more| - 1];
      assert more[|more| - 1] in more;
    }
  }

  /** What closing leaves: with nothing buffered, queued or lost, each session's rows are the calls recorded for it. */
  lemma CloseStoresAll(start: State, events: seq<Event>, closing: seq<Event>, sid: Sid, classifier: bool)
    requires Fresh(start) && Closing(closing)
    requires var s := Run(Run(start, events), closing); s.pending == map[] && s.queue == [] && s.lost == []
    ensures Picked(Run(Run(start, events), closing).rows, EntryOf(sid, classifier))
            == Picked(start.rows, EntryOf(sid, classifier)) + Recorded(events, sid, classifier)
  {
    hide Run, Picked, Recorded, EntryOf;
    RunOn(start, events, closing);
    EveryCallStored(start, events + closing, sid, classifier);
    ClosingRecords(events, closing, sid, classifier);
  }

  lemma EndedStep(s: State, sid: Sid)
    ensures var t := Step(s, Ended(sid)); t.pending == s.pending - {sid} && t.rows == s.rows
  {
  }

  lemma Shrinks<K, V>(m: map<K, V>, k: K)
    requires k in m
    ensures |m - {k}| < |m|
  {
    assert (m - {k}).Keys == m.Keys - {k};
    assert |m.Keys - {k}| == |m.Keys| - 1;
  }

  /** The database: each insert is stored or raises. */
  class Store {
    var rows: seq<Row>

    constructor (rows: seq<Row>)
      ensures this.rows == rows
    {
      this.rows := rows;
    }

    method Append(row: Row) returns (ok: bool)
      modifies this
      ensures rows == old(rows) + if ok then [row] else []
    {
      ok := *;
      if ok {
        rows := rows + [row];
      }
    }

    /** `append_turn`: the row, under the next number of the table. */
    method AppendTurn(sid: Sid, index: nat, summary: string) returns (id: nat, ok: bool)
      modifies this
      ensures id == TurnCount(old(rows)) + 1
      ensures rows == old(rows) + if ok then [TurnRow(id, sid, index, summary)] else []
    {
      id := TurnCount(rows) + 1;
      ok := Append(TurnRow(id, sid, index, summary));
    }
  }

  class AuditWriter {
    const store: Store
    var sessions: seq<Sid>
    var pending: map<Sid, seq<Call>>
    var counters: map<Sid, nat>
    var queue: seq<Op>
    var degraded: bool
    var told: seq<Sid>
    var started: bool
    ghost var lost: seq<Row>

    ghost function Now(): State
      reads this, store
    {
      State(sessions, pending, counters, queue, degraded, told, store.rows, lost)
    }

    constructor (store: Store)
      ensures this.store == store && Fresh(Now()) && sessions == [] && told == [] && !started
      ensures Now().rows == store.rows
    {
      this.store := store;
      sessions, pending, counters, queue := [], map[], map[], [];
      degraded, told, started := false, [], false;
      lost := [];
    }

    method Start()
      modifies this`started
      ensures started
    {
      started := true;
    }

    method Enqueue(op: Op)
      modifies this`queue
      ensures queue == old(queue) + [op]
    {
      queue := queue + [op];
    }

    method AttachSession(sid: Sid)
      modifies this`sessions, this`queue
      ensures Now() == Step(old(Now()), Attach(sid))
    {
      if sid !in sessions {
        sessions := sessions + [sid];
      }
      Enqueue(AttachOp(sid));
    }

    method RecordModelCall(sid: Sid, call: Call, isClassifier: bool)
      modifies this`queue, this`pending
      ensures Now() == Step(old(Now()), Record(sid, call, isClassifier))
    {
      if isClassifier {
        Enqueue(ClassifierOp(sid, call));
      } else {
        pending := pending[sid := (if sid in pending then pending[sid] else []) + [call]];
      }
    }

    method OnTurnComplete(sid: Sid, summary: string)
      modifies this`queue, this`pending, this`counters
      ensures Now() == Step(old(Now()), Turn(sid, summary))
    {
      var index := (if sid in counters then counters[sid] else 0) + 1;
      counters := counters[sid := index];
      var buffered := if sid in pending then pending[sid] else [];
      pending := pending - {sid};
      Enqueue(TurnOp(sid, index, summary, buffered));
    }

    method OnSteer(sid: Sid, message: string)
      modifies this`queue
      ensures Now() == Step(old(Now()), Steer(sid, message))
    {
      var index := (if sid in counters then counters[sid] else 0) + 1;
      Enqueue(SteerOp(sid, message, index));
    }

    /** `_flush_pending_model_calls`. */
    method FlushPending(sid: Sid)
      modifies this`queue, this`pending
      ensures Now() == Step(old(Now()), Ended(sid))
    {
      var buffered := if sid in pending then pending[sid] else [];
      pending := pending - {sid};
      if buffered == [] {
        return;
      }
      Enqueue(CallsOp(sid, buffered));
    }

    /** The model calls of one operation, one insert each, until one raises. */
    method WriteCalls(sid: Sid, turn: Option<nat>, calls: seq<Call>) returns (n: nat)
      modifies store
      ensures n <= |calls| && store.rows == old(store.rows) + CallRows(sid, turn, calls)[..n]
    {
      n := 0;
      while n < |calls|
        invariant n <= |calls| && store.rows == old(store.rows) + CallRows(sid, turn, calls)[..n]
      {
        var ok := store.Append(CallRow(sid, turn, Ledger(calls[n]), false));
        if !ok {
          return;
        }
        n := n + 1;
      }
    }

    /** A turn's row and the first of its calls', one insert after another. */
    static lemma TurnWritten(was: seq<Row>, before: seq<Row>, turn: Row, calls: seq<Row>, m: nat)
      requires before == was + [turn] && m <= |calls|
      ensures before + calls[..m] == was + ([turn] + calls)[..m + 1]
    {
    }

    /** A turn's operation: its row, then its calls' with that row's number. */
    method WriteTurn(sid: Sid, index: nat, summary: string, calls: seq<Call>) returns (n: nat, ok: bool)
      modifies store
      ensures var id := TurnCount(old(store.rows)) + 1;
              var rows := [TurnRow(id, sid, index, summary)] + CallRows(sid, Some(id), calls);
              n <= |rows| && (ok <==> n == |rows|) && store.rows == old(store.rows) + rows[..n]
    {
      hide TurnCount;
      var id, stored := store.AppendTurn(sid, index, summary);
      if !stored {
        return 0, false;
      }
      ghost var before := store.rows;
      var m := WriteCalls(sid, Some(id), calls);
      n, ok := m + 1, m == |calls|;
      TurnWritten(old(store.rows), before, TurnRow(id, sid, index, summary), CallRows(sid, Some(id), calls), m);
    }

    /** The queued callable: how many of its inserts were stored, and whether all were. */
    method Perform(op: Op) returns (n: nat, ok: bool)
      modifies store
      ensures var rows := RowsOf(op, TurnCount(old(store.rows)) + 1);
              n <= |rows| && (ok <==> n == |rows|) && store.rows == old(store.rows) + rows[..n]
    {
      hide TurnCount, Ledger;
      match op {
        case AttachOp(sid) =>
          ok := store.Append(StartRow(sid));
          n := if ok then 1 else 0;
        case TurnOp(sid, index, summary, calls) =>
          n, ok := WriteTurn(sid, index, summary, calls);
        case CallsOp(sid, calls) =>
          n := WriteCalls(sid, None, calls);
          ok := n == |calls|;
        case ClassifierOp(sid, call) =>
          ok := store.Append(CallRow(sid, None, Ledger(call), true));
          n := if ok then 1 else 0;
        case SteerOp(sid, message, index) =>
          ok := store.Append(SteerRow(sid, message, index));
          n := if ok then 1 else 0;
        case NoteOp(sid, what) =>
          ok := store.Append(NoteRow(sid, what));
          n := if ok then 1 else 0;
      }
    }

    /** One turn of `_drain`: an operation performed, or its failure told, once per streak. */
    method DrainOne() returns (ghost written: nat)
      requires queue != []
      modifies this`queue, this`degraded, this`told, this`lost, store
      ensures Now() == Step(old(Now()), Drain(written)) && |queue| < |old(queue)|
    {
      hide RowsOf, TurnCount, Queued;
      var op := queue[0];
      ghost var rows := RowsOf(op, TurnCount(store.rows) + 1);
      queue := queue[1..];
      var n, ok := Perform(op);
      written := n;
      if ok {
        degraded := false;
        assert rows[..n] == rows;
      } else {
        lost := lost + rows[n..];
        if !degraded {
          degraded := true;
          told := told + if op.sid in sessions then [op.sid] else sessions;
        }
      }
    }

    /** `close`: every buffer to the queue, then the queue to the store if the drain was started. */
    method Close() returns (ghost closing: seq<Event>)
      modifies this, store
      ensures Closing(closing) && Now() == Run(old(Now()), closing)
      ensures pending == map[] && !started
      ensures old(started) ==> queue == []
      ensures !old(started) ==> store.rows == old(store.rows)
    {
      hide Step, Drained;
      closing := [];
      while pending != map[]
        invariant Closing(closing) && Now() == Run(old(Now()), closing)
        invariant store.rows == old(store.rows) && started == old(started)
        decreases |pending|
      {
        var sid :| sid in pending;
        ghost var more := closing + [Ended(sid)];
        assert more[..|more| - 1] == closing;
        EndedStep(Now(), sid);
        Shrinks(pending, sid);
        FlushPending(sid);
        closing := more;
      }
      if started {
        while queue != []
          invariant Closing(closing) && Now() == Run(old(Now()), closing) && pending == map[]
          decreases |queue|
        {
          ghost var written := DrainOne();
          ghost var more := closing + [Drain(written)];
          assert more[..|more| - 1] == closing;
          closing := more;
        }
        started := false;
      }
    }
  }
}
