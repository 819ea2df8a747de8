/**
 What of a saved conversation comes before a window of its event log
 (core/tstd/chat_history.py).
 */
module ChatHistory {
  import opened Text
  import opened Conversation
  import opened CompactionText
  import opened Compaction
  import opened HistoryRows

  const HOOK_BLOCKED_NOTE := "A hook blocked this message, so it was not sent: "
  const IMAGE_NOTE_OPENING := "[Images attached: "

  /** The events that place a window; `response` names the streamed reply a chunk belongs to. */
  datatype Event =
    | UserTurned(content: string)
    | Delta(text: string, response: Option<string>)
    | Reasoning
    | Retracted(reply: string)
    | Called(id: string)
    | Resulted(id: string)
    | Completed
    | Reset
    | OtherEvent

  /** `user_turns` None, or the history before the window. */
  datatype History = Unknown | History(rows: seq<Row>, turns: nat, truncated: bool)

  // ---------------------------------------------------------- blocked turns

  /** The note that answers a user turn blocked by a hook: the first thing streamed after it. */
  function Answer(window: seq<Event>, at: nat): (note: Option<nat>)
    ensures note.Some? ==> at <= note.value < |window| && window[note.value].Delta?
    decreases |window| - at
  {
    if at >= |window| then None
    else if window[at].Delta? then (if StartsWith(window[at].text, HOOK_BLOCKED_NOTE) then Some(at) else None)
    else if window[at].UserTurned? || window[at].Called? || window[at].Resulted? || window[at].Reasoning? then None
    else Answer(window, at + 1)
  }

  /** A user turn a hook blocked, or the note that says so. */
  ghost predicate IsBlocked(window: seq<Event>, p: nat) {
    exists at: nat | at < |window| ::
      window[at].UserTurned? && Answer(window, at + 1).Some? && (p == at || Answer(window, at + 1) == Some(p))
  }

  /** The same of the events before `at`. */
  ghost predicate BlockedBefore(window: seq<Event>, at: nat, p: nat)
    requires at <= |window|
  {
    exists a: nat | a < at ::
      window[a].UserTurned? && Answer(window, a + 1).Some? && (p == a || Answer(window, a + 1) == Some(p))
  }

  lemma BlockedNext(window: seq<Event>, at: nat, p: nat)
    requires at < |window|
    ensures BlockedBefore(window, at + 1, p)
            <==> BlockedBefore(window, at, p)
                 || (window[at].UserTurned? && Answer(window, at + 1).Some?
                     && (p == at || Answer(window, at + 1) == Some(p)))
  {
    hide Answer;
  }

  lemma BlockedOver(window: seq<Event>, p: nat)
    ensures IsBlocked(window, p) <==> BlockedBefore(window, |window|, p)
    ensures !BlockedBefore(window, 0, p)
  {
    hide Answer;
  }

  method Blocked(window: seq<Event>) returns (blocked: set<nat>)
    ensures forall p: nat :: p in blocked <==> IsBlocked(window, p)
  {
    hide BlockedBefore, IsBlocked, StartsWith;
    blocked := {};
    forall p: nat {
      BlockedOver(window, p);
    }
    for at := 0 to |window|
      invariant forall p: nat :: p in blocked <==> BlockedBefore(window, at, p)
    {
      forall p: nat {
        BlockedNext(window, at, p);
      }
      if !window[at].UserTurned? {
        continue;
      }
      var later := at + 1;
      while later < |window|
        invariant at + 1 <= later <= |window| && Answer(window, at + 1) == Answer(window, later)
      {
        var follower := window[later];
        if follower.Delta? {
          break;
        }
        if follower.UserTurned? || follower.Called? || follower.Resulted? || follower.Reasoning? {
          break;
        }
        later := later + 1;
      }
      if later < |window| && window[later].Delta? && StartsWith(window[later].text, HOOK_BLOCKED_NOTE) {
        assert Answer(window, at + 1) == Some(later);
        blocked := blocked + {at, later};
      }
    }
  }

  function ShownTurns(window: seq<Event>, blocked: set<nat>): nat {
    if window == [] then 0
    else
      var last := |window| - 1;
      ShownTurns(window[..last], blocked) + if window[last].UserTurned? && last !in blocked then 1 else 0
  }

  // ------------------------------------------------------------- the boundary

  predicate Calls(m: Message, id: string) {
    exists c | c in m.calls :: c.id == id
  }

  function WithCall(conv: seq<Message>, id: string): seq<nat> {
    if conv == [] then []
    else
      var last := |conv| - 1;
      WithCall(conv[..last], id)
      + if Calls(conv[last], id) then [last] else []
  }

  /** An id is a key only when exactly one message holds it. */
  function OnlyMessageWithCall(conv: seq<Message>, id: string): Option<nat> {
    if id == "" then None
    else
      var found := WithCall(conv, id);
      if |found| == 1 then Some(found[0]) else None
  }

  /** The first message at `end` or later that is no tool result. */
  function PastTools(conv: seq<Message>, end: nat): (r: nat)
    requires end <= |conv|
    ensures end <= r <= |conv| && (r < |conv| ==> !conv[r].role.Tool?) && forall i | end <= i < r :: conv[i].role.Tool?
    decreases |conv| - end
  {
    if end < |conv| && conv[end].role.Tool? then PastTools(conv, end + 1) else end
  }

  method PastResults(conv: seq<Message>, index: nat) returns (end: nat)
    requires index < |conv|
    ensures end == PastTools(conv, index + 1)
  {
    end := index + 1;
    while end < |conv| && conv[end].role.Tool?
      invariant index + 1 <= end <= |conv| && PastTools(conv, end) == PastTools(conv, index + 1)
    {
      end := end + 1;
    }
  }

  /** A user message that is a turn of the window. */
  predicate Asks(m: Message) {
    m.role.User? && !m.check
  }

  /** The last reply before `at` in the same turn, or `owner` when there is none. */
  function ReplyBefore(conv: seq<Message>, at: nat, owner: nat): (r: nat)
    requires at <= owner <= |conv|
    ensures r <= owner
    ensures r < owner ==>
            conv[r].role.Assistant? && r < at && forall i | r < i < at :: !conv[i].role.Assistant? && !Asks(conv[i])
  {
    if at == 0 then owner
    else if conv[at - 1].role.Assistant? then at - 1
    else if Asks(conv[at - 1]) then owner
    else ReplyBefore(conv, at - 1, owner)
  }

  method LastReplyBefore(conv: seq<Message>, owner: nat) returns (r: nat)
    requires owner <= |conv|
    ensures r == ReplyBefore(conv, owner, owner)
  {
    var i := owner;
    while i > 0
      invariant 0 <= i <= owner && ReplyBefore(conv, i, owner) == ReplyBefore(conv, owner, owner)
    {
      i := i - 1;
      if conv[i].role.Assistant? {
        return i;
      }
      if conv[i].role.User? && !conv[i].check {
        break;
      }
    }
    r := owner;
  }

  /** `_numbering_agrees`: the turns before the end are those before the window, a last summary aside. */
  predicate NumberingAgrees(conv: seq<Message>, owners: seq<nat>, end: nat, first: nat)
    requires end <= |conv|
  {
    var before := OwnedBefore(owners, end);
    before == first || (end > 0 && conv[end - 1].role.System? && before > first)
  }

  predicate HasImages(m: Message) {
    m.content.Parts? && ImagePart in m.content.parts
  }

  /** The last place `pattern` stands in `text`. */
  function FindLast(text: string, pattern: string, from: nat): (at: Option<nat>)
    requires from <= |text| + 1
    ensures at.Some? ==> at.value + |pattern| <= |text|
  {
    if from == 0 then None
    else if Occurs(text, pattern, from - 1) then Some(from - 1)
    else FindLast(text, pattern, from - 1)
  }

  function Unspaced(s: string): string {
    if s == "" then "" else (if PySpace(s[0]) then "" else [s[0]]) + Unspaced(s[1..])
  }

  /** `plain`: redacted, with no white space. */
  function Plain(shaper: Shaper, text: string): string {
    Unspaced(shaper.redact(text))
  }

  /** `_same_words`. */
  predicate SameWords(shaper: Shaper, m: Message, shown: string) {
    var cut := if HasImages(m) then FindLast(shown, IMAGE_NOTE_OPENING, |shown| + 1) else None;
    var words := if cut.Some? then shown[..cut.value] else shown;
    Plain(shaper, shaper.typed(m)) == Plain(shaper, words)
  }

  /** `_tool_boundary`; `result` for a tool result's event. */
  function ToolBoundary(conv: seq<Message>, id: string, result: bool, owners: seq<nat>, first: nat): (end: Option<nat>)
    requires first <= |owners| && forall n | 0 <= n < |owners| :: owners[n] < |conv|
    ensures end.Some? ==> end.value <= |conv|
  {
    var found := OnlyMessageWithCall(conv, id);
    var at := if found.Some? && found.value < |conv|
              then Some(if result then PastTools(conv, found.value + 1) else found.value) else None;
    if at.Some? && NumberingAgrees(conv, owners, at.value, first) then at
    else if first == 0 || !conv[owners[first - 1]].role.User? then None
    else Some(owners[first - 1] + 1)
  }

  /** A boundary, and whether the window starts at the session's first turn. */
  datatype Boundary = Boundary(end: Option<nat>, firstTurn: bool)

  /** `_turn_boundary`. */
  function TurnBoundary(shaper: Shaper, conv: seq<Message>, content: string, owners: seq<nat>, first: nat,
          streamed: bool): (b: Boundary)
    requires first < |owners| && forall n | 0 <= n < |owners| :: owners[n] < |conv|
    ensures b.end.Some? ==> b.end.value <= |conv|
    ensures b.firstTurn ==> first == 0 && b.end == Some(owners[0]) && SameWords(shaper, conv[owners[0]], content)
  {
    var owner := owners[first];
    if !conv[owner].role.User? then Boundary(Some(owner + 1), false)
    else if !SameWords(shaper, conv[owner], content) then Boundary(None, false)
    else if streamed then Boundary(Some(ReplyBefore(conv, owner, owner)), false)
    else Boundary(Some(owner), first == 0)
  }

  function Withdrawn(window: seq<Event>): set<string> {
    set e | e in window && e.Retracted? :: e.reply
  }

  /** The text of the streamed chunks that no retry withdrew. */
  function Streamed(window: seq<Event>, blocked: set<nat>, withdrawn: set<string>): string {
    if window == [] then ""
    else
      var last := |window| - 1;
      Streamed(window[..last], blocked, withdrawn)
      + if last !in blocked && window[last].Delta?
        && (window[last].response.None? || window[last].response.value !in withdrawn)
        then window[last].text else ""
  }

  predicate EndsIn(s: string, tail: string) {
    |tail| <= |s| && s[|s| - |tail|..] == tail
  }

  /** The reply that ends in `tail`, alone or joined with the replies after it in its turn. */
  function ReplyEnding(shaper: Shaper, conv: seq<Message>, at: nat, joined: string, tail: string): (r: Option<nat>)
    requires at <= |conv|
    ensures r.Some? ==> r.value < at && conv[r.value].role.Assistant? && forall i | r.value <= i < at :: !Asks(conv[i])
  {
    if at == 0 || Asks(conv[at - 1]) then None
    else if !conv[at - 1].role.Assistant? then ReplyEnding(shaper, conv, at - 1, joined, tail)
    else
      var text := Plain(shaper, ContentText(conv[at - 1].content));
      if EndsIn(text + joined, tail) || EndsIn(text, tail) then Some(at - 1)
      else ReplyEnding(shaper, conv, at - 1, text + joined, tail)
  }

  method FindReply(shaper: Shaper, conv: seq<Message>, tail: string) returns (r: Option<nat>)
    ensures r == ReplyEnding(shaper, conv, |conv|, "", tail)
  {
    var joined := "";
    var i := |conv|;
    while i > 0
      invariant 0 <= i <= |conv|
                && ReplyEnding(shaper, conv, i, joined, tail) == ReplyEnding(shaper, conv, |conv|, "", tail)
    {
      i := i - 1;
      if conv[i].role.User? && !conv[i].check {
        return None;
      }
      if !conv[i].role.Assistant? {
        continue;
      }
      var text := Plain(shaper, ContentText(conv[i].content));
      joined := text + joined;
      if EndsIn(joined, tail) || EndsIn(text, tail) {
        return Some(i);
      }
    }
    r := None;
  }

  /** One past the last question. */
  function LastQuestion(conv: seq<Message>): (end: Option<nat>)
    ensures end.Some? ==> end.value <= |conv|
  {
    if conv == [] then None else if Asks(conv[|conv| - 1]) then Some(|conv|) else LastQuestion(conv[..|conv| - 1])
  }

  predicate Finished(window: seq<Event>, blocked: set<nat>) {
    exists at | 0 <= at < |window| :: at !in blocked && window[at].Completed?
  }

  /** `_streamed_boundary`. */
  function StreamedBoundary(shaper: Shaper, conv: seq<Message>, window: seq<Event>,
          blocked: set<nat>): (end: Option<nat>)
    ensures end.Some? ==> end.value <= |conv|
  {
    var tail := Plain(shaper, Streamed(window, blocked, Withdrawn(window)));
    var reply := if tail == "" then None else ReplyEnding(shaper, conv, |conv|, "", tail);
    if reply.Some? then reply
    else if !Finished(window, blocked) then Some(|conv|)
    else LastQuestion(conv)
  }

  /** `_boundary`, from event `at` on: the first event that names a message decides. */
  function BoundaryFrom(shaper: Shaper, conv: seq<Message>, window: seq<Event>, blocked: set<nat>, owners: seq<nat>,
          first: nat, at: nat, streamed: bool): (b: Boundary)
    requires first <= |owners| && (forall n | 0 <= n < |owners| :: owners[n] < |conv|)
    requires at <= |window| && |owners| - first == ShownTurns(window, blocked) && ShownTurns(window[..at], blocked) == 0
    ensures b.end.Some? ==> b.end.value <= |conv|
    ensures b.firstTurn ==> first == 0
    decreases |window| - at
  {
    if at == |window| then
      if !streamed then Boundary(Some(|conv|), false)
      else Boundary(StreamedBoundary(shaper, conv, window, blocked), false)
    else
      assert window[..at + 1][..at] == window[..at];
      if at in blocked then BoundaryFrom(shaper, conv, window, blocked, owners, first, at + 1, streamed)
      else
        match window[at]
        case Delta(_, _) => BoundaryFrom(shaper, conv, window, blocked, owners, first, at + 1, true)
        case Reasoning => BoundaryFrom(shaper, conv, window, blocked, owners, first, at + 1, true)
        case Called(id) => Boundary(ToolBoundary(conv, id, false, owners, first), false)
        case Resulted(id) => Boundary(ToolBoundary(conv, id, true, owners, first), false)
        case UserTurned(content) =>
          SomeShown(window, blocked, at);
          TurnBoundary(shaper, conv, content, owners, first, streamed)
        case _ => BoundaryFrom(shaper, conv, window, blocked, owners, first, at + 1, streamed)
  }

  /** A user turn the window shows is one of those it counts. */
  lemma {:induction false} SomeShown(window: seq<Event>, blocked: set<nat>, at: nat)
    requires at < |window| && window[at].UserTurned? && at !in blocked
    ensures ShownTurns(window, blocked) > 0
  {
    var last := |window| - 1;
    if at < last {
      assert window[..last][at] == window[at];
      SomeShown(window[..last], blocked, at);
    }
  }

  /** `_boundary` as it runs: the events looked at in order. */
  method FindBoundary(shaper: Shaper, conv: seq<Message>, window: seq<Event>, blocked: set<nat>, owners: seq<nat>,
          first: nat)
    returns (b: Boundary)
    requires first <= |owners| && (forall n | 0 <= n < |owners| :: owners[n] < |conv|)
    requires |owners| - first == ShownTurns(window, blocked)
    ensures b == BoundaryFrom(shaper, conv, window, blocked, owners, first, 0, false)
  {
    hide ToolBoundary, TurnBoundary, StreamedBoundary;
    var streamed := false;
    var at := 0;
    assert window[..0] == [];
    while at < |window|
      invariant 0 <= at <= |window| && ShownTurns(window[..at], blocked) == 0
      invariant BoundaryFrom(shaper, conv, window, blocked, owners, first, at, streamed)
                == BoundaryFrom(shaper, conv, window, blocked, owners, first, 0, false)
    {
      assert window[..at + 1][..at] == window[..at];
      var event := window[at];
      if at !in blocked {
        if event.Delta? || event.Reasoning? {
          streamed := true;
        } else if event.Called? || event.Resulted? {
          return Boundary(ToolBoundary(conv, event.id, event.Resulted?, owners, first), false);
        } else if event.UserTurned? {
          SomeShown(window, blocked, at);
          return TurnBoundary(shaper, conv, event.content, owners, first, streamed);
        }
      }
      at := at + 1;
    }
    if !streamed {
      return Boundary(Some(|conv|), false);
    }
    b := Boundary(StreamedBoundary(shaper, conv, window, blocked), false);
  }

  // -------------------------------------------------------------- the history

  /** The user turns a hook blocked, and their notes. */
  ghost function BlockedIn(window: seq<Event>): set<nat> {
    set p: nat | p < |window| && IsBlocked(window, p)
  }

  /** The turns the window shows: its user turns that no hook blocked. */
  ghost function Shown(window: seq<Event>): nat {
    ShownTurns(window, BlockedIn(window))
  }

  lemma BlockedInside(window: seq<Event>, blocked: set<nat>)
    requires forall p: nat :: p in blocked <==> IsBlocked(window, p)
    ensures BlockedIn(window) == blocked
  {
  }

  /** Where the history ends, once the window shows no more turns than the session has. */
  ghost function End(shaper: Shaper, conv: seq<Message>, window: seq<Event>): (b: Boundary)
    requires Shown(window) <= |Owners(conv)|
    ensures b.end.Some? ==> b.end.value <= |conv|
    ensures b.firstTurn ==> |Owners(conv)| == Shown(window)
  {
    OwnersAgree(conv);
    assert window[..0] == [];
    BoundaryFrom(shaper, conv, window, BlockedIn(window), Owners(conv), |Owners(conv)| - Shown(window), 0, false)
  }

  /** The conversation and the window can be lined up, and something is left to say. */
  ghost predicate LinedUp(shaper: Shaper, conv: seq<Message>, window: seq<Event>) {
    var owners := Owners(conv);
    && Reset !in window && Shown(window) <= |owners|
    && End(shaper, conv, window).end.Some?
    && var first, end := |owners| - Shown(window), End(shaper, conv, window).end.value;
       var all := RowsFrom(shaper, conv[..end], 0, owners, first);
       && NumberingAgrees(conv, owners, end, first)
       && (End(shaper, conv, window).firstTurn || (all != [] && Sizes(shaper, all[|all| - 1..]) <= TOTAL_CAP))
  }

  /** Its rows are the newest that fit; without rows it does not say whether something was too large. */
  ghost predicate HasNewest(shaper: Shaper, conv: seq<Message>, end: nat, h: History)
    requires h.History? && end <= |conv|
  {
    var all := RowsFrom(shaper, conv[..end], 0, Owners(conv), h.turns);
    Newest(shaper, all, h.rows, h.truncated || (h.rows == [] && all != []))
  }

  /**
   What a history promises, with `end` where it stops:
   - its turns and the window's together are all the session's;
   - its rows are the newest that fit of the messages before the end; without rows it is called
     whole, though it may be one message too large for the frame that it has not;
   - whole and with rows, they account for exactly its turns: user rows and turns folded into summaries;
   - where the end splits the turns exactly, every user row is numbered below `turns`, and no
     turn the window shows is held by a message before the end.
   */
  ghost predicate Lines(shaper: Shaper, conv: seq<Message>, window: seq<Event>, end: nat, h: History)
    requires h.History? && end <= |conv|
  {
    var owners := Owners(conv);
    && h.turns + Shown(window) == |WindowTurns(conv)|
    && HasNewest(shaper, conv, end, h)
    && (h.rows == [] ==> h.turns == 0 && !h.truncated)
    && (!h.truncated ==> Accounted(h.rows, h.turns) == h.turns)
    && (OwnedBefore(owners, end) == h.turns ==>
          && (forall row | row in h.rows && row.UserRow? :: row.index.Some? && row.index.value < h.turns)
          && forall n | h.turns <= n < |owners| :: owners[n] >= end)
  }

  /** `history_before_window`. */
  method HistoryBeforeWindow(shaper: Shaper, conv: seq<Message>, window: seq<Event>) returns (h: History)
    ensures h.History? <==> LinedUp(shaper, conv, window)
    ensures h.History? ==> Lines(shaper, conv, window, End(shaper, conv, window).end.value, h)
  {
    hide RowsFrom, Owners, BoundaryFrom, NumberingAgrees, Sizes, ShownTurns, IsBlocked, End, LinedUp, Lines, Newest,
         HasNewest, OwnedBefore;
    if Reset in window {
      Unlined(shaper, conv, window);
      return Unknown;
    }
    var blocked := Blocked(window);
    BlockedInside(window, blocked);
    var owners := TurnOwners(conv);
    OwnersAgree(conv);
    var shown := ShownTurns(window, blocked);
    if |owners| < shown {
      Unlined(shaper, conv, window);
      return Unknown;
    }
    var first := |owners| - shown;
    var b := FindBoundary(shaper, conv, window, blocked, owners, first);
    assert End(shaper, conv, window) == b by {
      NothingShown(window, blocked);
      EndIs(shaper, conv, window, blocked);
    }
    LinedUpAt(shaper, conv, window);
    if b.end.None? || !NumberingAgrees(conv, owners, b.end.value, first) {
      return Unknown;
    }
    var end := b.end.value;
    var rows, truncated := NewestRows(shaper, conv[..end], owners, first);
    NoneFits(shaper, RowsFrom(shaper, conv[..end], 0, owners, first), rows, truncated);
    if rows == [] {
      if !b.firstTurn {
        return Unknown;
      }
      h := History([], 0, false);
    } else {
      h := History(rows, first, truncated);
    }
    Promised(shaper, conv, end, first, rows, truncated);
    AsNewest(shaper, conv, end, h, rows, truncated);
    LinesOf(shaper, conv, window, end, h);
  }

  lemma AsNewest(shaper: Shaper, conv: seq<Message>, end: nat, h: History, rows: seq<Row>, truncated: bool)
    requires h.History? && end <= |conv| && h.rows == rows
             && (if rows == [] then !h.truncated else h.truncated == truncated)
    requires Newest(shaper, RowsFrom(shaper, conv[..end], 0, Owners(conv), h.turns), rows, truncated)
    ensures HasNewest(shaper, conv, end, h)
  {
    hide RowsFrom, Owners, Sizes;
  }

  lemma NothingShown(window: seq<Event>, blocked: set<nat>)
    ensures ShownTurns(window[..0], blocked) == 0
  {
  }

  lemma Unlined(shaper: Shaper, conv: seq<Message>, window: seq<Event>)
    requires Reset in window || Shown(window) > |Owners(conv)|
    ensures !LinedUp(shaper, conv, window)
  {
  }

  lemma EndIs(shaper: Shaper, conv: seq<Message>, window: seq<Event>, blocked: set<nat>)
    requires blocked == BlockedIn(window) && Shown(window) <= |Owners(conv)|
    requires (forall n | 0 <= n < |Owners(conv)| :: Owners(conv)[n] < |conv|) && ShownTurns(window[..0], blocked) == 0
    ensures End(shaper, conv, window)
            == BoundaryFrom(shaper, conv, window, blocked, Owners(conv), |Owners(conv)| - Shown(window), 0, false)
  {
  }

  lemma LinedUpAt(shaper: Shaper, conv: seq<Message>, window: seq<Event>)
    requires Reset !in window && Shown(window) <= |Owners(conv)|
    ensures var b, first := End(shaper, conv, window), |Owners(conv)| - Shown(window);
            LinedUp(shaper, conv, window) <==>
            b.end.Some? && NumberingAgrees(conv, Owners(conv), b.end.value, first)
            && var all := RowsFrom(shaper, conv[..b.end.value], 0, Owners(conv), first);
               b.firstTurn || (all != [] && Sizes(shaper, all[|all| - 1..]) <= TOTAL_CAP)
  {
    hide RowsFrom, Owners, End, NumberingAgrees, Sizes;
  }

  lemma LinesOf(shaper: Shaper, conv: seq<Message>, window: seq<Event>, end: nat, h: History)
    requires h.History? && end <= |conv| && h.turns + Shown(window) == |Owners(conv)| == |WindowTurns(conv)|
    requires HasNewest(shaper, conv, end, h)
    requires !h.truncated ==> Accounted(h.rows, h.turns) == h.turns
    requires h.rows == [] ==> h.turns == 0 && !h.truncated
    requires OwnedBefore(Owners(conv), end) == h.turns ==>
               && (forall row | row in h.rows && row.UserRow? :: row.index.Some? && row.index.value < h.turns)
               && forall n | h.turns <= n < |Owners(conv)| :: Owners(conv)[n] >= end
    ensures Lines(shaper, conv, window, end, h)
  {
    hide RowsFrom, Owners, End, NumberingAgrees, Sizes, Newest, HasNewest;
  }

  /** No row fits exactly when there is none, or the newest is too large by itself. */
  lemma NoneFits(shaper: Shaper, all: seq<Row>, rows: seq<Row>, truncated: bool)
    requires Newest(shaper, all, rows, truncated)
    ensures rows == [] <==> all == [] || Sizes(shaper, all[|all| - 1..]) > TOTAL_CAP
  {
    if rows != [] {
      assert rows == rows[..|rows| - 1] + all[|all| - 1..];
      SizesConcat(shaper, rows[..|rows| - 1], all[|all| - 1..]);
    }
  }

  lemma Promised(shaper: Shaper, conv: seq<Message>, end: nat, first: nat, rows: seq<Row>, truncated: bool)
    requires end <= |conv| && NumberingAgrees(conv, Owners(conv), end, first)
    requires Newest(shaper, RowsFrom(shaper, conv[..end], 0, Owners(conv), first), rows, truncated)
    ensures !truncated ==> Accounted(rows, first) == first
    ensures OwnedBefore(Owners(conv), end) == first ==>
              && (forall row | row in rows && row.UserRow? :: row.index.Some? && row.index.value < first)
              && forall n | first <= n < |Owners(conv)| :: Owners(conv)[n] >= end
  {
    hide Owners, RowsFrom, OwnedBefore, Sizes, WindowTurns;
    var all := RowsFrom(shaper, conv[..end], 0, Owners(conv), first);
    HistoryAccounts(shaper, conv, end, first);
    assert !truncated ==> rows == all;
    if OwnedBefore(Owners(conv), end) == first {
      NumbersBelow(shaper, conv, end, 0, first);
      OwnersAgree(conv);
      HeldIsOwned(Owners(conv), first, end);
      assert forall row | row in rows :: row in all;
    }
  }

  /** Event `at` names a message of the conversation: a tool call, its result or a user turn. */
  ghost predicate Places(window: seq<Event>, at: nat)
    requires at < |window|
  {
    at !in BlockedIn(window) && (window[at].Called? || window[at].Resulted? || window[at].UserTurned?)
  }

  /** The first event that does, or the window's length when none does. */
  ghost predicate FirstPlace(window: seq<Event>, at: nat) {
    && at <= |window| && (at < |window| ==> Places(window, at))
    && forall k | 0 <= k < at :: !Places(window, k)
  }

  /** Before it the window shows a reply being streamed. */
  ghost predicate Streaming(window: seq<Event>, at: nat)
    requires at <= |window|
  {
    exists k | 0 <= k < at :: k !in BlockedIn(window) && (window[k].Delta? || window[k].Reasoning?)
  }

  /** The first event that names a message decides where the history ends, and no other does. */
  lemma FirstPlaceDecides(shaper: Shaper, conv: seq<Message>, window: seq<Event>, at: nat)
    requires Shown(window) <= |Owners(conv)| && FirstPlace(window, at)
    ensures forall n | 0 <= n < |Owners(conv)| :: Owners(conv)[n] < |conv|
    ensures at < |window| && window[at].UserTurned? ==> |Owners(conv)| - Shown(window) < |Owners(conv)|
    ensures var owners, first := Owners(conv), |Owners(conv)| - Shown(window);
            End(shaper, conv, window) ==
              if at == |window| then
                Boundary(if Streaming(window, at) then StreamedBoundary(shaper, conv, window, BlockedIn(window))
                         else Some(|conv|), false)
              else if window[at].UserTurned? then
                TurnBoundary(shaper, conv, window[at].content, owners, first, Streaming(window, at))
              else Boundary(ToolBoundary(conv, window[at].id, window[at].Resulted?, owners, first), false)
  {
    hide ToolBoundary, TurnBoundary, StreamedBoundary, IsBlocked, ShownTurns, BlockedIn, BoundaryFrom, Owners,
         WindowTurns, IsSummary;
    OwnersAgree(conv);
    var blocked := BlockedIn(window);
    NothingShown(window, blocked);
    if at < |window| && window[at].UserTurned? {
      SomeShown(window, blocked, at);
    }
    EndIs(shaper, conv, window, blocked);
    BoundarySkips(shaper, conv, window, Owners(conv), |Owners(conv)| - Shown(window), 0, at, false);
  }

  lemma {:induction false} BoundarySkips(shaper: Shaper, conv: seq<Message>, window: seq<Event>, owners: seq<nat>,
          first: nat, from: nat, at: nat, streamed: bool)
    requires first <= |owners| && (forall n | 0 <= n < |owners| :: owners[n] < |conv|)
    requires from <= at && FirstPlace(window, at) && (streamed <==> Streaming(window, from))
    requires |owners| - first == Shown(window) && ShownTurns(window[..from], BlockedIn(window)) == 0
    ensures at < |window| && window[at].UserTurned? ==> first < |owners|
    ensures BoundaryFrom(shaper, conv, window, BlockedIn(window), owners, first, from, streamed) ==
              if at == |window| then
                Boundary(if Streaming(window, at) then StreamedBoundary(shaper, conv, window, BlockedIn(window))
                         else Some(|conv|), false)
              else if window[at].UserTurned? then
                TurnBoundary(shaper, conv, window[at].content, owners, first, Streaming(window, at))
              else Boundary(ToolBoundary(conv, window[at].id, window[at].Resulted?, owners, first), false)
    decreases at - from
  {
    hide ToolBoundary, TurnBoundary, StreamedBoundary, IsBlocked, BlockedIn;
    var blocked := BlockedIn(window);
    if at < |window| && window[at].UserTurned? {
      SomeShown(window, blocked, at);
    }
    if from < at {
      assert window[..from + 1][..from] == window[..from];
      assert !Places(window, from);
      var streams := from !in blocked && (window[from].Delta? || window[from].Reasoning?);
      BoundarySkips(shaper, conv, window, owners, first, from + 1, at, streamed || streams);
    }
  }

  /** The message that holds the first turn the window shows. */
  ghost function FirstOwner(conv: seq<Message>, window: seq<Event>): (owner: nat)
    requires 0 < Shown(window) <= |Owners(conv)|
    ensures owner < |conv|
  {
    OwnersAgree(conv);
    Owners(conv)[|Owners(conv)| - Shown(window)]
  }

  /**
   A reply cut in half by the window stays out of the history: where the window opens with the end of
   a reply and then names a user turn with the right words, the history ends at the last reply of the
   turn before, and with the user turn only where that turn has no reply at all.
   */
  lemma StreamedReplyStaysOut(shaper: Shaper, conv: seq<Message>, window: seq<Event>, at: nat)
    requires 0 < Shown(window) <= |Owners(conv)| && FirstPlace(window, at)
    requires at < |window| && window[at].UserTurned? && Streaming(window, at)
    requires var m := conv[FirstOwner(conv, window)]; m.role.User? && SameWords(shaper, m, window[at].content)
    ensures var owner, end := FirstOwner(conv, window), End(shaper, conv, window).end;
            && end.Some? && end.value <= owner
            && (forall i | end.value < i < owner :: !conv[i].role.Assistant?)
            && (end.value < owner ==>
               conv[end.value].role.Assistant? && forall i | end.value < i < owner :: !Asks(conv[i]))
            && (end.value == owner ==>
                  forall i | 0 <= i < owner && conv[i].role.Assistant? :: exists q | i < q < owner :: Asks(conv[q]))
  {
    hide Owners, End, FirstPlace, Streaming, SameWords, IsBlocked, StreamedBoundary;
    FirstPlaceDecides(shaper, conv, window, at);
    var owner := FirstOwner(conv, window);
    NoReplyAfter(conv, owner, owner);
  }

  lemma {:induction false} NoReplyAfter(conv: seq<Message>, at: nat, owner: nat)
    requires at <= owner <= |conv|
    ensures var r := ReplyBefore(conv, at, owner);
            && (r < owner ==> forall i | r < i < at :: !conv[i].role.Assistant?)
            && (r == owner ==>
                  forall i | 0 <= i < at && conv[i].role.Assistant? :: exists q | i < q < at :: Asks(conv[q]))
  {
    if at > 0 && !conv[at - 1].role.Assistant? && !Asks(conv[at - 1]) {
      NoReplyAfter(conv, at - 1, owner);
    }
  }

  /** A call's id places the window exactly when it is not empty and one message alone holds it. */
  lemma CallPlaces(conv: seq<Message>, id: string, at: nat)
    ensures OnlyMessageWithCall(conv, id) == Some(at) <==>
            id != "" && at < |conv| && Calls(conv[at], id) && forall i | 0 <= i < |conv| && i != at ::
              !Calls(conv[i], id)
  {
    hide Calls, WithCall;
    WithCallExact(conv, id);
    var found := WithCall(conv, id);
    if |found| == 1 {
      assert found[0] in found;
    }
    if |found| >= 2 {
      assert found[0] in found && found[1] in found;
    }
    if at < |conv| && Calls(conv[at], id) {
      assert at in found;
    }
  }

  lemma {:induction false} WithCallExact(conv: seq<Message>, id: string)
    ensures forall i: nat :: i in WithCall(conv, id) <==> i < |conv| && Calls(conv[i], id)
    ensures forall j, k | 0 <= j < k < |WithCall(conv, id)| :: WithCall(conv, id)[j] < WithCall(conv, id)[k]
  {
    hide Calls;
    if conv == [] {
    } else {
      var last := |conv| - 1;
      WithCallExact(conv[..last], id);
      var front := WithCall(conv[..last], id);
      assert forall j | 0 <= j < |front| :: front[j] in front;
    }
  }
}
