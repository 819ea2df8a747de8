/**
 A session's conversation over any run of appended messages, automatic compactions and
 compactions on request: the numbers a window gives its user turns never change meaning.
 */
module CompactionRuns {
  import opened Text
  import opened Decimal
  import opened Conversation
  import opened CompactionText
  import opened Compaction

  datatype Step =
    | Append(message: Message)
    | Auto(budget: int, meter: Meter, carry: string, body: Option<string>, files: string)
    | Request(guidance: string, topicOf: string -> Topic, meter: Meter, position: Option<int>,
              carry: string, body: Option<string>, files: string)

  /** What a step replaces by one summary. */
  ghost function Folded(ms: seq<Message>, step: Step): (span: Option<Span>)
    ensures span.Some? ==> 1 <= span.value.start < span.value.end <= |ms|
  {
    match step
    case Append(_) => None
    case Auto(budget, meter, _, _, _) => AutoSpan(ms, budget, meter)
    case Request(_, _, _, position, _, _, _) => ManualSpan(ms, position)
  }

  ghost function Apply(ms: seq<Message>, step: Step): seq<Message> {
    match step
    case Append(m) => ms + [m]
    case Auto(budget, meter, carry, body, files) => MaybeCompact(ms, budget, meter, carry, body, files).messages
    case Request(guidance, topicOf, meter, position, carry, body, files) =>
      match CompactOnRequest(ms, meter, guidance, topicOf, position, carry, body, files)
      case None => ms
      case Some(r) => r.messages
  }

  ghost function Run(ms: seq<Message>, steps: seq<Step>): seq<Message>
    decreases |steps|
  {
    if steps == [] then ms else Run(Apply(ms, steps[0]), steps[1..])
  }

  /** Only the daemon's compaction writes system messages; nothing else is appended as one. */
  ghost predicate Appends(steps: seq<Step>) {
    forall s | s in steps :: s.Append? ==> !s.message.role.System?
  }

  /** The user turns a step adds to the window: an appended user message that is no done-check. */
  ghost function Adds(step: Step): nat {
    if step.Append? && step.message.role.User? && !step.message.check then 1 else 0
  }

  ghost function AddsAll(steps: seq<Step>): nat {
    if steps == [] then 0 else Adds(steps[0]) + AddsAll(steps[1..])
  }

  /** A compaction is the fold of its span into a summary that stands for the span's turns. */
  lemma CompactionFolds(ms: seq<Message>, step: Step)
    requires !step.Append?
    ensures Folded(ms, step).None? ==> Apply(ms, step) == ms
    ensures Folded(ms, step).Some? ==>
              var start, end := Folded(ms, step).value.start, Folded(ms, step).value.end;
              exists m: Message ::
                && Apply(ms, step) == Fold(ms, start, end, m) && m.role.System?
                && (HeaderFits(UserTurns(ms[start..end])) ==> TurnsOf(m) == UserTurns(ms[start..end]))
  {
    hide Estimate, AutoCut, CoreText, HeaderFits, TurnsOf, UserTurns, MaybeCompact, SummaryUserTurns;
    var span := Folded(ms, step);
    if step.Auto? {
      AutoFoldsSpan(ms, step.budget, step.meter, step.carry, step.body, step.files);
    }
    if span.Some? {
      var start, end := span.value.start, span.value.end;
      var dropped := ms[start..end];
      var turns := UserTurns(dropped);
      var focus := if step.Request? then Focus(step.guidance) else "";
      var topic := if step.Request? then step.topicOf(focus) else None;
      var m := SummaryMessage(dropped, turns, focus, topic, step.body, step.carry, step.files);
      assert Apply(ms, step) == Fold(ms, start, end, m);
      if HeaderFits(turns) {
        SummaryStandsFor(dropped, turns, focus, topic, step.body, step.carry, step.files);
      }
    }
  }

  /**
   One step, turn by turn: the window's turns keep their numbers. A turn before the span a
   compaction folds keeps its place, one inside it is in the summary, one after it moves.
   */
  lemma StepNumbers(ms: seq<Message>, step: Step)
    requires |WindowTurns(ms)| < Pow10(1900) && (step.Append? ==> !step.message.role.System?)
    ensures var w, w' := WindowTurns(ms), WindowTurns(Apply(ms, step));
            && |w'| == |w| + Adds(step)
            && forall n | 0 <= n < |w| ::
                 w'[n] == match Folded(ms, step) case None => w[n] case Some(span) => Moved(w[n], span.start, span.end)
  {
    hide Entries, Entry, UserTurns, HeaderFits, Fold, TurnsOf, Pow10, Folded, Apply;
    if step.Append? {
      AppendNumbers(ms, step);
    } else {
      CompactionFolds(ms, step);
      var span := Folded(ms, step);
      if span.Some? {
        var start, end := span.value.start, span.value.end;
        // No more turns inside a span than the window numbers.
        assert UserTurns(ms[start..end]) <= |WindowTurns(ms)| by {
          hide Entry, Entries, UserTurns;
          var a, b, c := ms[..start], ms[start..end], ms[end..];
          assert ms == a + (b + c);
          EntriesConcat(a, b + c, 0);
          EntriesConcat(b, c, start);
          EntriesShift(b, start, start);
        }
        CountsFit(UserTurns(ms[start..end]));
        var m: Message :| Apply(ms, step) == Fold(ms, start, end, m) && m.role.System?
                          && (HeaderFits(UserTurns(ms[start..end])) ==> TurnsOf(m) == UserTurns(ms[start..end]));
        FoldNumbers(ms, start, end, m);
      }
    }
  }

  lemma AppendNumbers(ms: seq<Message>, step: Step)
    requires step.Append? && !step.message.role.System?
    ensures Folded(ms, step) == None && Apply(ms, step) == ms + [step.message]
    ensures var w, w' := WindowTurns(ms), WindowTurns(Apply(ms, step));
            |w'| == |w| + Adds(step) && forall n | 0 <= n < |w| :: w'[n] == w[n]
  {
    hide Entries;
    var m := step.message;
    LastEntry(ms + [m], 0);
    assert (ms + [m])[..|ms|] == ms;
    assert |Entry(m, |ms|)| == TurnsOf(m) == Adds(step);
  }

  /** A step folds the message that window turn `n` names into a summary. */
  ghost predicate FoldsTurn(ms: seq<Message>, step: Step, n: nat) {
    && n < |WindowTurns(ms)| && WindowTurns(ms)[n].Some?
    && Folded(ms, step).Some?
    && Folded(ms, step).value.start <= WindowTurns(ms)[n].value < Folded(ms, step).value.end
  }

  /** Some step of the run folds it. */
  ghost predicate FoldedIn(ms: seq<Message>, steps: seq<Step>, n: nat) {
    exists k | 0 <= k < |steps| :: FoldsTurn(Run(ms, steps[..k]), steps[k], n)
  }

  /** A turn the window shows names the message it named before, until a compaction folds it. */
  lemma StepNames(ms: seq<Message>, step: Step, n: nat)
    requires |WindowTurns(ms)| < Pow10(1900) && (step.Append? ==> !step.message.role.System?)
    requires n < |WindowTurns(ms)|
    ensures var w, ms' := WindowTurns(ms), Apply(ms, step);
            var w' := WindowTurns(ms');
            && n < |w'| && (w'[n] == None <==> w[n] == None || FoldsTurn(ms, step, n))
            && (w'[n].Some? ==> w[n].value < |ms| && w'[n].value < |ms'| && ms'[w'[n].value] == ms[w[n].value])
  {
    hide Entry, Entries, Apply, Folded, Pow10;
    StepNumbers(ms, step);
    EntriesFrom(ms, 0);
    EntriesFrom(Apply(ms, step), 0);
    MovedMessage(ms, step);
  }

  /** A fold moves every message outside its span where `Moved` says. */
  lemma MovedMessage(ms: seq<Message>, step: Step)
    ensures forall i | 0 <= i < |ms| ::
              var to := match Folded(ms, step) case None => Some(i)
                case Some(span) => Moved(Some(i), span.start, span.end);
              to.Some? ==> to.value < |Apply(ms, step)| && Apply(ms, step)[to.value] == ms[i]
  {
    hide AutoSpan, ManualSpan, MaybeCompact, CompactOnRequest, HeaderFits, TurnsOf, UserTurns, Moved, Fold;
    if step.Append? {
      assert forall m: Message, i | 0 <= i < |ms| :: (ms + [m])[i] == ms[i];
    } else {
      hide Folded, Apply, Fold;
      CompactionFolds(ms, step);
      match Folded(ms, step)
      case None =>
      case Some(span) =>
        var m :| Apply(ms, step) == Fold(ms, span.start, span.end, m);
        FoldMoves(ms, span.start, span.end, m);
    }
  }

  lemma FoldMoves(ms: seq<Message>, start: nat, end: nat, m: Message)
    requires 1 <= start < end <= |ms|
    ensures forall i | 0 <= i < |ms| && Moved(Some(i), start, end).Some? ::
              var to := Moved(Some(i), start, end).value;
              to < |Fold(ms, start, end, m)| && Fold(ms, start, end, m)[to] == ms[i]
  {
  }

  /**
   Over any run: the window's numbering grows by the user messages appended, done-checks
   aside, and by nothing else; turn n names the same message until a compaction folds it, and
   from then on no message.
   */
  lemma {:induction false} RunNumbers(ms: seq<Message>, steps: seq<Step>)
    requires Appends(steps) && |WindowTurns(ms)| + AddsAll(steps) < Pow10(1900)
    ensures var w, end := WindowTurns(ms), Run(ms, steps);
            var w' := WindowTurns(end);
            && |w'| == |w| + AddsAll(steps)
            && forall n | 0 <= n < |w| ::
                 && (w'[n] == None <==> w[n] == None || FoldedIn(ms, steps, n))
                 && (w'[n].Some? ==>
                       w[n].value < |ms| && w'[n].value < |end| && end[w'[n].value] == ms[w[n].value])
    decreases |steps|
  {
    hide Entry, Entries, Apply, Pow10, Adds, FoldsTurn, Folded;
    EntriesFrom(ms, 0);
    if steps == [] {
    } else {
      var next := Apply(ms, steps[0]);
      assert steps[0] in steps && forall s | s in steps[1..] :: s in steps;
      StepNumbers(ms, steps[0]);
      RunNumbers(next, steps[1..]);
      forall n | 0 <= n < |WindowTurns(ms)|
        ensures var w, end := WindowTurns(ms), Run(ms, steps);
                var w' := WindowTurns(end);
                && n < |w'| && (w'[n] == None <==> w[n] == None || FoldedIn(ms, steps, n))
                && (w'[n].Some? ==>
                      w[n].value < |ms| && w'[n].value < |end| && end[w'[n].value] == ms[w[n].value])
      {
        StepNames(ms, steps[0], n);
        FoldedFirst(ms, steps, n);
      }
    }
  }

  /** A turn is folded by the first step or by a later one. */
  lemma FoldedFirst(ms: seq<Message>, steps: seq<Step>, n: nat)
    requires steps != []
    ensures FoldedIn(ms, steps, n)
            <==> FoldsTurn(ms, steps[0], n) || FoldedIn(Apply(ms, steps[0]), steps[1..], n)
  {
    hide FoldsTurn, Apply;
    var next, rest := Apply(ms, steps[0]), steps[1..];
    assert steps[..0] == [] && Run(ms, []) == ms;
    forall k | 0 < k < |steps|
      ensures FoldsTurn(Run(ms, steps[..k]), steps[k], n) <==> FoldsTurn(Run(next, rest[..k - 1]), rest[k - 1], n)
    {
      assert steps[..k][1..] == rest[..k - 1];
    }
    if FoldedIn(next, rest, n) {
      var k :| 0 <= k < |rest| && FoldsTurn(Run(next, rest[..k]), rest[k], n);
      assert FoldsTurn(Run(ms, steps[..k + 1]), steps[k + 1], n);
    }
  }

  /** A window number that names a message names a user turn the window shows. */
  lemma NumbersNameTurns(ms: seq<Message>, n: nat)
    requires n < |WindowTurns(ms)| && WindowTurns(ms)[n].Some?
    ensures var i := WindowTurns(ms)[n].value; i < |ms| && ms[i].role.User? && !ms[i].check
  {
    EntriesFrom(ms, 0);
  }

  /** A compaction of a conversation that does not open with tool calls keeps calls and results together. */
  lemma StepKeepsGroups(ms: seq<Message>, step: Step)
    requires Unbroken(ms) && !step.Append? && (ms != [] ==> CallIds(ms[0]) == [])
    ensures Unbroken(Apply(ms, step)) && (Apply(ms, step) != [] ==> CallIds(Apply(ms, step)[0]) == [])
  {
    hide Estimate, AutoCut, CoreText, CallIds, Unbroken, MaybeCompact;
    match step {
      case Auto(budget, meter, carry, body, files) =>
        AutoKeepsGroups(ms, budget, meter, carry, body, files);
        RunningTurnStays(ms, budget, meter, carry, body, files);
      case Request(guidance, topicOf, meter, position, carry, body, files) =>
        RequestKeepsGroups(ms, meter, guidance, topicOf, position, carry, body, files);
    }
  }
}
