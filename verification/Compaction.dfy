/**
 Compaction of older turns into one summary message, and the numbering of user turns
 from the start of a session (core/tstd/compaction.py).
 */
module Compaction {
  import opened Text
  import opened Decimal
  import opened Conversation
  import opened CompactionText

  const KEEP_USER_TURNS := 2
  const LONG_TURN_STEPS := 8
  const MAX_GUIDANCE_CHARS := 500
  const MESSAGE_OVERHEAD_TOKENS := 4

  // ------------------------------------------------------------ token counts

  /** A token counter, its calibration, and the tool definitions as a request serialises them. */
  datatype Meter = Meter(count: string -> nat, scale: nat -> nat, tools: seq<string>)

  function ArgumentsOf(calls: seq<Call>): string {
    if calls == [] then ""
    else (if calls[0].fn.Some? then calls[0].fn.value.arguments else "") + ArgumentsOf(calls[1..])
  }

  /** What a request sends of a message; echoed thinking only in the running turn. */
  function Spoken(m: Message, running: bool): string {
    ContentText(m.content) + (if running then m.reasoning else "") + ArgumentsOf(m.calls) + m.details
  }

  function Tokens(meter: Meter, text: string): nat {
    if text == "" then 0 else meter.count(text)
  }

  function MessageTokens(ms: seq<Message>, start: nat, meter: Meter): nat {
    if ms == [] then 0
    else MessageTokens(ms[..|ms| - 1], start, meter) + Tokens(meter, Spoken(ms[|ms| - 1], |ms| - 1 >= start))
  }

  function ToolTokens(tools: seq<string>, meter: Meter): nat {
    if tools == [] then 0 else ToolTokens(tools[..|tools| - 1], meter) + Tokens(meter, tools[|tools| - 1])
  }

  function Estimate(ms: seq<Message>, meter: Meter): nat {
    MessageTokens(ms, TurnStart(ms), meter) + ToolTokens(meter.tools, meter)
                  + meter.scale(MESSAGE_OVERHEAD_TOKENS * |ms|)
  }

  method EstimateTokens(ms: seq<Message>, meter: Meter) returns (total: nat)
    ensures total == Estimate(ms, meter)
  {
    total := 0;
    var start := TurnStartIndex(ms);
    for i := 0 to |ms|
      invariant total == MessageTokens(ms[..i], start, meter)
    {
      assert ms[..i + 1][..i] == ms[..i];
      var text := Spoken(ms[i], i >= start);
      if text != "" {
        total := total + meter.count(text);
      }
    }
    assert ms[..|ms|] == ms;
    var messages := total;
    for i := 0 to |meter.tools|
      invariant total == messages + ToolTokens(meter.tools[..i], meter)
    {
      assert meter.tools[..i + 1][..i] == meter.tools[..i];
      if meter.tools[i] != "" {
        total := total + meter.count(meter.tools[i]);
      }
    }
    assert meter.tools[..|meter.tools|] == meter.tools;
    total := total + meter.scale(MESSAGE_OVERHEAD_TOKENS * |ms|);
  }

  // ------------------------------------------------------- numbering the turns

  /** Where `str.splitlines` breaks a line. */
  predicate LineBoundary(c: char) {
    c as int in {0x0A, 0x0B, 0x0C, 0x0D, 0x1C, 0x1D, 0x1E, 0x85, 0x2028, 0x2029}
  }

  /** The lines of an older summary that stand for a user turn each. */
  function UserLines(text: string, lineStart: bool): nat {
    if text == "" then 0
    else (if lineStart && StartsWith(text, "User: ") then 1 else 0) + UserLines(text[1..], LineBoundary(text[0]))
  }

  /** `summary_user_turns`. */
  function SummaryUserTurns(m: Message): Option<nat> {
    if !IsSummary(m) then None
    else
      match ReadCount(ContentText(m.content))
      case Some(n) => Some(n)
      case None => Some(UserLines(ContentText(m.content), true))
  }

  /** The user turns one message stands for. */
  function TurnsOf(m: Message): nat {
    if m.role.User? then (if m.check then 0 else 1)
    else match SummaryUserTurns(m) case Some(n) => n case None => 0
  }

  /** `_user_turns`. */
  function UserTurns(ms: seq<Message>): nat {
    if ms == [] then 0 else UserTurns(ms[..|ms| - 1]) + TurnsOf(ms[|ms| - 1])
  }

  method CountUserTurns(ms: seq<Message>) returns (total: nat)
    ensures total == UserTurns(ms)
  {
    total := 0;
    for i := 0 to |ms|
      invariant total == UserTurns(ms[..i])
    {
      assert ms[..i + 1][..i] == ms[..i];
      if ms[i].role.User? {
        total := total + if ms[i].check then 0 else 1;
      } else {
        var folded := SummaryUserTurns(ms[i]);
        total := total + if folded.Some? then folded.value else 0;
      }
    }
    assert ms[..|ms|] == ms;
  }

  function Repeat<T>(x: T, n: nat): (s: seq<T>)
    ensures |s| == n && forall i | 0 <= i < n :: s[i] == x
  {
    seq(n, _ => x)
  }

  /** What the message at `index` adds to the window's user turns. */
  function Entry(m: Message, index: nat): (entry: seq<Option<nat>>)
    ensures |entry| == if index == 0 && m.role.System? then 0 else TurnsOf(m)
  {
    if index == 0 && m.role.System? then []
    else if m.role.User? then (if m.check then [] else [Some(index)])
    else Repeat(None, TurnsOf(m))
  }

  /** The entries of messages that stand at `base` and on. */
  function Entries(ms: seq<Message>, base: nat): seq<Option<nat>> {
    if ms == [] then [] else Entries(ms[..|ms| - 1], base) + Entry(ms[|ms| - 1], base + |ms| - 1)
  }

  /** `window_user_turns`: entry n is where user turn n is, None inside a summary. */
  function WindowTurns(ms: seq<Message>): seq<Option<nat>> {
    Entries(ms, 0)
  }

  method WindowUserTurns(ms: seq<Message>) returns (turns: seq<Option<nat>>)
    ensures turns == WindowTurns(ms)
  {
    hide SummaryUserTurns;
    turns := [];
    NoEntries(0);
    for i := 0 to |ms|
      invariant turns == Entries(ms[..i], 0)
    {
      assert Entries(ms[..i + 1], 0) == Entries(ms[..i], 0) + Entry(ms[i], i) by {
        hide Entry;
        assert ms[..i + 1][..i] == ms[..i];
      }
      if i == 0 && ms[i].role.System? {
        assert turns + [] == turns;
        continue;
      }
      if ms[i].role.User? {
        if !ms[i].check {
          turns := turns + [Some(i)];
        } else {
          assert turns + [] == turns;
        }
        continue;
      }
      var folded := SummaryUserTurns(ms[i]);
      if folded.Some? && folded.value != 0 {
        turns := turns + Repeat(None, folded.value);
      } else {
        assert turns + [] == turns;
      }
    }
    assert ms[..|ms|] == ms;
  }

  lemma {:induction false} EntriesConcat(a: seq<Message>, b: seq<Message>, base: nat)
    ensures Entries(a + b, base) == Entries(a, base) + Entries(b, base + |a|)
    decreases |b|
  {
    hide *;
    if b == [] {
      assert a + b == a;
      NoEntries(base + |a|);
      assert Entries(a, base) + [] == Entries(a, base);
    } else {
      var ab, last := a + b, |b| - 1;
      assert ab[..|ab| - 1] == a + b[..last] && ab[|ab| - 1] == b[last];
      EntriesConcat(a, b[..last], base);
      LastEntry(ab, base);
      LastEntry(b, base + |a|);
      var x, y, z := Entries(a, base), Entries(b[..last], base + |a|), Entry(b[last], base + |ab| - 1);
      assert (x + y) + z == x + (y + z);
    }
  }

  lemma NoEntries(base: nat)
    ensures Entries([], base) == []
  {
  }

  lemma LastEntry(ms: seq<Message>, base: nat)
    requires ms != []
    ensures Entries(ms, base) == Entries(ms[..|ms| - 1], base) + Entry(ms[|ms| - 1], base + |ms| - 1)
  {
  }

  /** `b` is `a` with every index that far on. */
  predicate Shifted(a: seq<Option<nat>>, b: seq<Option<nat>>, lo: nat, hi: nat, to: nat) {
    && |a| == |b|
    && forall n | 0 <= n < |a| ::
         match a[n]
         case None => b[n] == None
         case Some(i) => lo <= i < hi && b[n] == Some(i - lo + to)
  }

  /** Past the first message the entries are as many as the turns, each names its own message, wherever it stands. */
  lemma {:induction false} EntriesShift(ms: seq<Message>, base: nat, base': nat)
    requires base > 0 && base' > 0
    ensures |Entries(ms, base)| == UserTurns(ms)
    ensures Shifted(Entries(ms, base), Entries(ms, base'), base, base + |ms|, base')
  {
    hide Entry, Entries, TurnsOf;
    if ms == [] {
      NoEntries(base);
      NoEntries(base');
    } else {
      var last := |ms| - 1;
      EntriesShift(ms[..last], base, base');
      LastEntry(ms, base);
      LastEntry(ms, base');
      EntryShift(ms[last], base + last, base' + last);
      ShiftGlue(Entries(ms[..last], base), Entries(ms[..last], base'), Entry(ms[last], base + last),
                Entry(ms[last], base' + last), base, last, base');
    }
  }

  lemma EntryShift(m: Message, i: nat, j: nat)
    requires i > 0 && j > 0
    ensures Shifted(Entry(m, i), Entry(m, j), i, i + 1, j)
  {
    hide TurnsOf;
  }

  lemma ShiftGlue(a: seq<Option<nat>>, b: seq<Option<nat>>, x: seq<Option<nat>>, y: seq<Option<nat>>, base: nat, n: nat,
          base': nat)
    requires Shifted(a, b, base, base + n, base') && Shifted(x, y, base + n, base + n + 1, base' + n)
    ensures Shifted(a + x, b + y, base, base + n + 1, base')
  {
  }

  lemma EntryFrom(m: Message, index: nat)
    ensures forall n | 0 <= n < |Entry(m, index)| ::
              Entry(m, index)[n].Some? ==> Entry(m, index)[n].value == index && m.role.User? && !m.check
  {
    hide TurnsOf;
  }

  lemma {:induction false} EntriesFrom(ms: seq<Message>, base: nat)
    ensures forall n | 0 <= n < |Entries(ms, base)| ::
              Entries(ms, base)[n].Some? ==>
                var i := Entries(ms, base)[n].value;
                base <= i < base + |ms| && ms[i - base].role.User? && !ms[i - base].check
  {
    hide Entry;
    if ms == [] {
    } else {
      EntriesFrom(ms[..|ms| - 1], base);
      EntryFrom(ms[|ms| - 1], base + |ms| - 1);
    }
  }

  // --------------------------------------------------------------- summaries

  function CoreText(dropped: seq<Message>, turns: nat, guidance: string, topic: Topic, body: Option<string>): string {
    if body.Some? && body.value != "" then ModelCore(body.value, guidance, turns)
    else Extractive(dropped, guidance, topic, turns)
  }

  /** `_summary_message`. */
  function SummaryMessage(dropped: seq<Message>, turns: nat, guidance: string, topic: Topic, body: Option<string>,
          carry: string, files: string): Message
  {
    Message(System, Words(Compose(CoreText(dropped, turns, guidance, topic, body), carry, files)), [], "", "", "",
            false, false)
  }

  /** A summary stands for as many turns as it was written for, whatever else it holds. */
  lemma SummaryStandsFor(dropped: seq<Message>, turns: nat, guidance: string, topic: Topic, body: Option<string>,
          carry: string, files: string)
    requires HeaderFits(turns)
    ensures var m := SummaryMessage(dropped, turns, guidance, topic, body, carry, files);
            SummaryUserTurns(m) == Some(turns) && TurnsOf(m) == turns
  {
    hide ModelCore, Extractive, ReadCount, StartsWith, Stripped, HeaderFits;
    var core := CoreText(dropped, turns, guidance, topic, body);
    var c := if Stripped(carry) == "" then "" else CARRY_MARK + Stripped(carry);
    var f := if Stripped(files) == "" then "" else FILES_MARK + Stripped(files);
    assert Compose(core, carry, files) == core + (c + f);
    if body.Some? && body.value != "" {
      ModelKeepsCount(body.value, guidance, turns, c + f);
    } else {
      ExtractKeepsCount(dropped, guidance, topic, turns, c + f);
    }
  }

  // ------------------------------------------------------------------- cuts

  function TurnStarts(ms: seq<Message>): (idxs: seq<nat>)
    ensures forall k | 0 <= k < |idxs| :: idxs[k] < |ms| && StartsTurn(ms[idxs[k]])
    ensures forall j, k | 0 <= j < k < |idxs| :: idxs[j] < idxs[k]
    ensures forall i | 0 <= i < |ms| && StartsTurn(ms[i]) :: i in idxs
  {
    if ms == [] then []
    else
      var front := TurnStarts(ms[..|ms| - 1]);
      if StartsTurn(ms[|ms| - 1]) then front + [|ms| - 1] else front
  }

  /** `find_compaction_point`: the oldest of the last `keep` messages that started a turn. */
  function CompactionPoint(ms: seq<Message>, keep: nat): (cut: nat)
    requires keep > 0
    ensures cut > 0 ==> cut < |ms| && StartsTurn(ms[cut])
  {
    var idxs := TurnStarts(ms);
    if |idxs| <= keep then 0 else idxs[|idxs| - keep]
  }

  function Max(a: nat, b: nat): nat {
    if a >= b then a else b
  }

  function Steps(ms: seq<Message>): nat {
    if ms == [] then 0 else (if ms[0].role.Assistant? then 1 else 0) + Steps(ms[1..])
  }

  /** `_auto_cut`; `budget` is the tier's `budget_threshold`. */
  function AutoCut(ms: seq<Message>, budget: int, meter: Meter): (cut: nat)
    requires ms != []
    ensures cut > 0 ==> cut < |ms| && StartsTurn(ms[cut])
  {
    var cut, running := CompactionPoint(ms, KEEP_USER_TURNS), CompactionPoint(ms, 1);
    if running <= Max(cut, 1) then cut
    else if Steps(ms[Max(cut, 1)..running]) <= LONG_TURN_STEPS then cut
    else if Estimate([ms[0]] + ms[Max(cut, 1)..], meter) <= budget then cut
    else running
  }

  datatype Span = Span(start: nat, end: nat)

  /** `auto_span`: what an automatic compaction would fold now. */
  function AutoSpan(ms: seq<Message>, budget: int, meter: Meter): (span: Option<Span>)
    ensures span.Some? ==> 1 == span.value.start < span.value.end < |ms| && StartsTurn(ms[span.value.end])
  {
    if ms == [] || Estimate(ms, meter) <= budget then None
    else
      var cut := AutoCut(ms, budget, meter);
      if cut > 1 then Some(Span(1, cut)) else None
  }

  /** `manual_span`: everything before the last turn, or a user message and all after it. */
  function ManualSpan(ms: seq<Message>, position: Option<int>): (span: Option<Span>)
    ensures span.Some? ==>
              && 1 <= span.value.start < span.value.end <= |ms|
              && (span.value.end < |ms| ==> span.value.start == 1 && StartsTurn(ms[span.value.end]))
              && (span.value.end == |ms| ==> ms[span.value.start].role.User?)
  {
    if ms == [] || !ms[0].role.System? then None
    else
      match position
      case None =>
        var cut := CompactionPoint(ms, 1);
        if cut > 1 then Some(Span(1, cut)) else None
      case Some(at) =>
        if 1 <= at < |ms| && ms[at].role.User? then Some(Span(at, |ms|)) else None
  }

  // ----------------------------------------------------------------- folding

  datatype Stats = Stats(dropped: nat, kept: nat, before: nat, after: nat, droppedTurns: nat)

  datatype Compacted = Compacted(messages: seq<Message>, stats: Option<Stats>)

  function Fold(ms: seq<Message>, start: nat, end: nat, summary: Message): (r: seq<Message>)
    requires start <= end <= |ms|
    ensures |r| == |ms| - (end - start) + 1
  {
    ms[..start] + [summary] + ms[end..]
  }

  /** `maybe_compact`. */
  function MaybeCompact(ms: seq<Message>, budget: int, meter: Meter, carry: string, body: Option<string>,
          files: string): Compacted
  {
    if ms == [] then Compacted(ms, None)
    else
      var before := Estimate(ms, meter);
      if before <= budget then Compacted(ms, None)
      else
        var cut := AutoCut(ms, budget, meter);
        if cut <= 1 then Compacted(ms, None)
        else
          var dropped := ms[1..cut];
          var turns := UserTurns(dropped);
          var compacted := [ms[0], SummaryMessage(dropped, turns, "", None, body, carry, files)] + ms[cut..];
          Compacted(compacted, Some(Stats(cut - 1, |compacted|, before, Estimate(compacted, meter), turns)))
  }

  /** `guidance.strip()[:MAX_GUIDANCE_CHARS]`. */
  function Focus(guidance: string): string {
    var g := Stripped(guidance);
    if |g| <= MAX_GUIDANCE_CHARS then g else g[..MAX_GUIDANCE_CHARS]
  }

  /** `compact_on_request`; `topicOf` finds which texts mention a guidance. */
  function CompactOnRequest(ms: seq<Message>, meter: Meter, guidance: string, topicOf: string -> Topic,
          position: Option<int>, carry: string, body: Option<string>, files: string): Option<Compacted>
  {
    match ManualSpan(ms, position)
    case None => None
    case Some(Span(start, end)) =>
      var focus := Focus(guidance);
      var dropped := ms[start..end];
      var turns := UserTurns(dropped);
      var compacted := ms[..start] + [SummaryMessage(dropped, turns, focus, topicOf(focus), body, carry, files)]
        + ms[end..];
      Some(Compacted(compacted,
                     Some(Stats(|dropped|, |compacted|, Estimate(ms, meter), Estimate(compacted, meter), turns))))
  }

  /** An automatic compaction folds exactly the span `auto_span` names, or nothing. */
  lemma AutoFoldsSpan(ms: seq<Message>, budget: int, meter: Meter, carry: string, body: Option<string>, files: string)
    ensures var r := MaybeCompact(ms, budget, meter, carry, body, files);
            match AutoSpan(ms, budget, meter)
            case None => r == Compacted(ms, None)
            case Some(Span(start, end)) =>
              && r.stats.Some? && r.stats.value.dropped == end - start
                 && r.stats.value.droppedTurns == UserTurns(ms[start..end])
              && r.messages == Fold(ms, start, end,
                 SummaryMessage(ms[start..end], UserTurns(ms[start..end]), "", None, body, carry, files))
  {
    hide Estimate, AutoCut, SummaryMessage, UserTurns;
    var span := AutoSpan(ms, budget, meter);
    if span.Some? {
      var m := SummaryMessage(ms[1..span.value.end], UserTurns(ms[1..span.value.end]), "", None, body, carry, files);
      assert ms[..1] + [m] + ms[span.value.end..] == [ms[0], m] + ms[span.value.end..];
    }
  }

  /** The running turn is never folded: its first message and everything after it stay, in order. */
  lemma RunningTurnStays(ms: seq<Message>, budget: int, meter: Meter, carry: string, body: Option<string>,
          files: string)
    ensures var r := MaybeCompact(ms, budget, meter, carry, body, files).messages;
            var kept := ms[TurnStart(ms)..];
            |kept| <= |r| && r[|r| - |kept|..] == kept
              && (ms == [] ==> r == []) && (ms != [] ==> r != [] && r[0] == ms[0])
  {
    hide Estimate, AutoCut, SummaryMessage, MaybeCompact, AutoSpan, TurnStart, UserTurns;
    AutoFoldsSpan(ms, budget, meter, carry, body, files);
    var span := AutoSpan(ms, budget, meter);
    if span.Some? {
      var r := MaybeCompact(ms, budget, meter, carry, body, files).messages;
      var at, end := TurnStart(ms), span.value.end;
      assert end <= at;
      assert r[2..] == ms[end..];
      assert ms[at..] == ms[end..][at - end..];
    }
  }

  /** Where a message stands after the messages from `start` to `end` became one summary. */
  function Moved(entry: Option<nat>, start: nat, end: nat): Option<nat>
    requires start <= end
  {
    match entry
    case None => None
    case Some(i) => if i < start then Some(i) else if i < end then None else Some(i - (end - start) + 1)
  }

  /**
   The numbering through a fold: as many turns as before; a turn before the span keeps its
   message, one inside it is in the summary now, one after it moves with its message.
   */
  lemma FoldNumbers(ms: seq<Message>, start: nat, end: nat, summary: Message)
    requires 1 <= start <= end <= |ms|
    requires summary.role.System? && TurnsOf(summary) == UserTurns(ms[start..end])
    ensures var w, w' := WindowTurns(ms), WindowTurns(Fold(ms, start, end, summary));
            |w'| == |w| && forall n | 0 <= n < |w| :: w'[n] == Moved(w[n], start, end)
  {
    hide Entry, Entries, UserTurns, TurnsOf, Shifted;
    var a, b, c := ms[..start], ms[start..end], ms[end..];
    assert ms == a + (b + c);
    EntriesConcat(a, b + c, 0);
    EntriesConcat(b, c, start);
    assert Fold(ms, start, end, summary) == a + ([summary] + c);
    EntriesConcat(a, [summary] + c, 0);
    EntriesConcat([summary], c, start);
    EntriesFrom(a, 0);
    EntriesShift(b, start, start);
    EntriesShift(c, end, start + 1);
    SummaryEntry(summary, start);
    NumbersGlue(Entries(a, 0), Entries(b, start), Entries(c, end), Repeat(None, UserTurns(b)), Entries(c, start + 1),
                start, end, |ms|);
  }

  lemma NumbersGlue(a: seq<Option<nat>>, b: seq<Option<nat>>, c: seq<Option<nat>>, r: seq<Option<nat>>,
          c': seq<Option<nat>>, start: nat, end: nat, n: nat)
    requires start <= end <= n && |b| == |r|
    requires forall j | 0 <= j < |a| :: a[j].Some? ==> a[j].value < start
    requires Shifted(b, b, start, end, start) && Shifted(c, c', end, n, start + 1)
    requires forall j | 0 <= j < |r| :: r[j] == None
    ensures var w, w' := a + (b + c), a + (r + c');
            |w'| == |w| && forall j | 0 <= j < |w| :: w'[j] == Moved(w[j], start, end)
  {
    var w, w' := a + (b + c), a + (r + c');
    forall j | 0 <= j < |w| ensures w'[j] == Moved(w[j], start, end) {
      if j < |a| {
        assert w[j] == a[j] && w'[j] == a[j];
      } else if j < |a| + |b| {
        assert w[j] == b[j - |a|] && w'[j] == r[j - |a|];
      } else {
        assert w[j] == c[j - |a| - |b|] && w'[j] == c'[j - |a| - |b|];
      }
    }
  }

  lemma SummaryEntry(summary: Message, index: nat)
    requires index > 0 && summary.role.System?
    ensures Entries([summary], index) == Repeat(None, TurnsOf(summary))
  {
    assert [summary][..0] == [];
    assert Entries([summary], index) == [] + Entry(summary, index);
  }

  // ------------------------------------------------------------- tool groups

  function CallIds(m: Message): (ids: seq<string>)
    ensures |ids| == if m.role.Assistant? then |m.calls| else 0
  {
    if m.role.Assistant? then seq(|m.calls|, i requires 0 <= i < |m.calls| => m.calls[i].id) else []
  }

  function ResultIds(ms: seq<Message>): (ids: seq<string>)
    ensures |ids| == |ms|
  {
    seq(|ms|, i requires 0 <= i < |ms| => ms[i].callId)
  }

  /** A message that is no result, and right after it one result for each tool call it holds. */
  predicate HeadGroup(ms: seq<Message>)
    requires ms != []
  {
    var k := |CallIds(ms[0])|;
    && !ms[0].role.Tool? && k < |ms|
    && (forall j | 1 <= j <= k :: ms[j].role.Tool?)
    && multiset(ResultIds(ms[1..k + 1])) == multiset(CallIds(ms[0]))
  }

  /**
   Every assistant message with tool calls is followed at once by one result for each, and no result
   stands elsewhere.
   */
  predicate Unbroken(ms: seq<Message>)
    decreases |ms|
  {
    ms == [] || (HeadGroup(ms) && Unbroken(ms[|CallIds(ms[0])| + 1..]))
  }

  lemma HeadGroupSame(a: seq<Message>, b: seq<Message>)
    requires a != [] && |CallIds(a[0])| < |a|
    ensures HeadGroup(a + b) <==> HeadGroup(a)
    ensures (a + b)[|CallIds(a[0])| + 1..] == a[|CallIds(a[0])| + 1..] + b
  {
    var k := |CallIds(a[0])|;
    assert (a + b)[1..k + 1] == a[1..k + 1];
    assert forall j | 0 <= j <= k :: (a + b)[j] == a[j];
  }

  lemma {:induction false} UnbrokenJoin(a: seq<Message>, b: seq<Message>)
    requires Unbroken(a) && Unbroken(b)
    ensures Unbroken(a + b)
    decreases |a|
  {
    hide CallIds;
    if a == [] {
      assert a + b == b;
    } else {
      assert |CallIds(a[0])| < |a|;
      hide HeadGroup, CallIds;
      HeadGroupSame(a, b);
      UnbrokenJoin(a[|CallIds(a[0])| + 1..], b);
    }
  }

  lemma {:induction false} UnbrokenSplit(a: seq<Message>, b: seq<Message>)
    requires Unbroken(a + b) && (b == [] || !b[0].role.Tool?)
    ensures Unbroken(a) && Unbroken(b)
    decreases |a|
  {
    hide CallIds;
    if a == [] {
      assert a + b == b;
    } else {
      // The first group ends before a message that is no result.
      assert |CallIds(a[0])| < |a| by {
        var ms := a + b;
        assert b != [] ==> ms[|a|] == b[0];
      }
      hide HeadGroup, CallIds;
      HeadGroupSame(a, b);
      UnbrokenSplit(a[|CallIds(a[0])| + 1..], b);
    }
  }

  /** A fold between messages that are no tool results leaves every group whole. */
  lemma FoldKeepsGroups(ms: seq<Message>, start: nat, end: nat, summary: Message)
    requires start <= end <= |ms| && Unbroken(ms) && summary.role.System?
    requires (start < |ms| ==> !ms[start].role.Tool?) && (end < |ms| ==> !ms[end].role.Tool?)
    ensures Unbroken(Fold(ms, start, end, summary))
  {
    hide Unbroken, HeadGroup, CallIds;
    assert ms == ms[..start] + ms[start..];
    UnbrokenSplit(ms[..start], ms[start..]);
    assert ms == ms[..end] + ms[end..];
    UnbrokenSplit(ms[..end], ms[end..]);
    OneSummary(summary);
    UnbrokenJoin([summary], ms[end..]);
    UnbrokenJoin(ms[..start], [summary] + ms[end..]);
    assert Fold(ms, start, end, summary) == ms[..start] + ([summary] + ms[end..]);
  }

  lemma OneSummary(summary: Message)
    requires summary.role.System?
    ensures Unbroken([summary])
  {
    hide CallIds;
    var ids: seq<string> := [];
    assert CallIds(summary) == ids;
    assert [summary][1..1] == [] && ResultIds([summary][1..1]) == ids;
    assert [summary][1..] == [];
  }

  /**
   Where every group was whole, an automatic compaction leaves them whole exactly when it
   folds nothing or the conversation does not begin with tool calls, whose results it would fold.
   */
  lemma AutoKeepsGroups(ms: seq<Message>, budget: int, meter: Meter, carry: string, body: Option<string>, files: string)
    requires Unbroken(ms)
    ensures Unbroken(MaybeCompact(ms, budget, meter, carry, body, files).messages)
            <==> (AutoSpan(ms, budget, meter).None? || CallIds(ms[0]) == [])
  {
    hide Estimate, AutoCut, SummaryMessage, MaybeCompact, CallIds;
    AutoFoldsSpan(ms, budget, meter, carry, body, files);
    var span := AutoSpan(ms, budget, meter);
    if span.Some? {
      var end := span.value.end;
      var m := SummaryMessage(ms[1..end], UserTurns(ms[1..end]), "", None, body, carry, files);
      assert m.role.System? by { SummaryIsSystem(ms[1..end], UserTurns(ms[1..end]), body, carry, files); }
      if CallIds(ms[0]) == [] {
        assert ms[1..] == ms[0 + 1..];
        FoldKeepsGroups(ms, 1, end, m);
      } else {
        assert Fold(ms, 1, end, m)[1] == m;
      }
    }
  }

  lemma SummaryIsSystem(dropped: seq<Message>, turns: nat, body: Option<string>, carry: string, files: string)
    ensures SummaryMessage(dropped, turns, "", None, body, carry, files).role.System?
  {
    hide CoreText;
  }

  /** A compaction on request never breaks a group. */
  lemma RequestKeepsGroups(ms: seq<Message>, meter: Meter, guidance: string, topicOf: string -> Topic,
          position: Option<int>, carry: string, body: Option<string>, files: string)
    requires Unbroken(ms)
    ensures var r := CompactOnRequest(ms, meter, guidance, topicOf, position, carry, body, files);
            r.Some? ==> Unbroken(r.value.messages)
  {
    hide Estimate, CoreText;
    var span := ManualSpan(ms, position);
    if span.Some? {
      var start, end := span.value.start, span.value.end;
      var focus := Focus(guidance);
      var m := SummaryMessage(ms[start..end], UserTurns(ms[start..end]), focus, topicOf(focus), body, carry, files);
      assert CallIds(ms[0]) == [] && ms[1..] == ms[0 + 1..];
      FoldKeepsGroups(ms, start, end, m);
    }
  }
}
