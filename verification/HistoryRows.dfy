/**
 The saved conversation as history rows: the newest that fit one frame
 (core/tstd/chat_history_rows.py), and the turns those rows account for.
 */
module HistoryRows {
  import opened Text
  import opened Conversation
  import opened CompactionText
  import opened Compaction

  const MAX_ROWS := 400
  const TEXT_CAP := 20000
  const TOTAL_CAP := 1500000

  datatype HistoryTool = HistoryTool(id: string, name: string, arguments: string)

  datatype Row =
    | UserRow(text: string, index: Option<nat>)
    | AssistantRow(text: string, tools: seq<HistoryTool>)
    | SummaryRow(text: string, folded: nat)

  /**
   What this model leaves to the daemon: redaction, a person's own words in a user message,
   a call's arguments as the window shows them, and the size of a row in the frame.
   */
  datatype Shaper = Shaper(redact: string -> string, typed: Message -> string, arguments: string -> string,
          size: Row -> nat)

  function StrippedRight(s: string): string {
    if s != "" && PySpace(s[|s| - 1]) then StrippedRight(s[..|s| - 1]) else s
  }

  /** `_cap`: redacted, then cut; never the other way round. */
  function Cap(shaper: Shaper, text: string, limit: nat): string {
    var t := shaper.redact(text);
    if |t| <= limit then t else StrippedRight(t[..limit]) + [' ', ELLIPSIS]
  }

  function ToolsOf(shaper: Shaper, calls: seq<Call>): seq<HistoryTool> {
    if calls == [] then []
    else
      (match calls[0].fn
       case None => []
       case Some(fn) => [HistoryTool(calls[0].id, fn.name, shaper.arguments(fn.arguments))])
      + ToolsOf(shaper, calls[1..])
  }

  function AssistantRowOf(shaper: Shaper, m: Message): Option<Row> {
    var tools := ToolsOf(shaper, m.calls);
    var text := Cap(shaper, Stripped(ContentText(m.content)), TEXT_CAP);
    if text == "" && tools == [] then None else Some(AssistantRow(text, tools))
  }

  /** How many of the first turns the message at `index` holds. */
  function Held(owners: seq<nat>, first: nat, index: nat): nat {
    if owners == [] then 0
    else
      Held(owners[..|owners| - 1], first, index)
      + if owners[|owners| - 1] == index && |owners| - 1 < first then 1 else 0
  }

  /** `{owner: turn for turn, owner in enumerate(owners)}`: of equal owners the last. */
  function TurnAt(owners: seq<nat>, index: nat): (turn: Option<nat>)
    ensures turn.Some? ==> turn.value < |owners| && owners[turn.value] == index
    ensures turn.None? ==> index !in owners
  {
    if owners == [] then None
    else if owners[|owners| - 1] == index then Some(|owners| - 1)
    else TurnAt(owners[..|owners| - 1], index)
  }

  /** `_row`. */
  function RowOf(shaper: Shaper, m: Message, index: nat, owners: seq<nat>, first: nat): Option<Row> {
    if index == 0 && m.role.System? then None
    else
      match m.role
      case User => if m.check then None
        else Some(UserRow(Cap(shaper, shaper.typed(m), TEXT_CAP), TurnAt(owners, index)))
      case Assistant => AssistantRowOf(shaper, m)
      case Tool => None
      case System =>
        var folded := Held(owners, first, index);
        if folded == 0 then None else Some(SummaryRow(Cap(shaper, ContentText(m.content), TEXT_CAP), folded))
  }

  /** The rows of the messages from `i` on, in order. */
  function RowsFrom(shaper: Shaper, ms: seq<Message>, i: nat, owners: seq<nat>, first: nat): seq<Row>
    requires i <= |ms|
    decreases |ms| - i
  {
    if i == |ms| then []
    else
      (match RowOf(shaper, ms[i], i, owners, first) case None => [] case Some(row) => [row])
      + RowsFrom(shaper, ms, i + 1, owners, first)
  }

  function Sizes(shaper: Shaper, rows: seq<Row>): nat {
    if rows == [] then 0 else shaper.size(rows[0]) + Sizes(shaper, rows[1..])
  }

  lemma {:induction false} SizesConcat(shaper: Shaper, a: seq<Row>, b: seq<Row>)
    ensures Sizes(shaper, a + b) == Sizes(shaper, a) + Sizes(shaper, b)
  {
    if a == [] {
      assert a + b == b;
    } else {
      assert (a + b)[1..] == a[1..] + b;
      SizesConcat(shaper, a[1..], b);
    }
  }

  function Reversed(rows: seq<Row>): (r: seq<Row>)
    ensures |r| == |rows| && forall i | 0 <= i < |rows| :: r[i] == rows[|rows| - 1 - i]
  {
    if rows == [] then [] else [rows[|rows| - 1]] + Reversed(rows[..|rows| - 1])
  }

  lemma {:induction false} RowsSuffix(shaper: Shaper, ms: seq<Message>, i: nat, owners: seq<nat>, first: nat)
    requires i <= |ms|
    ensures var all, some := RowsFrom(shaper, ms, 0, owners, first), RowsFrom(shaper, ms, i, owners, first);
            |some| <= |all| && some == all[|all| - |some|..]
  {
    hide RowOf;
    if i > 0 {
      RowsSuffix(shaper, ms, i - 1, owners, first);
    }
  }

  /** The rows that fit: a suffix of them all within both caps, and one row more is over one of them. */
  ghost predicate Newest(shaper: Shaper, all: seq<Row>, rows: seq<Row>, truncated: bool) {
    && |rows| <= |all| && rows == all[|all| - |rows|..]
    && |rows| <= MAX_ROWS && Sizes(shaper, rows) <= TOTAL_CAP
    && (truncated <==> |rows| < |all|)
    && (truncated ==> |rows| == MAX_ROWS || Sizes(shaper, all[|all| - |rows| - 1..]) > TOTAL_CAP)
  }

  lemma NewestAll(shaper: Shaper, all: seq<Row>)
    requires |all| <= MAX_ROWS && Sizes(shaper, all) <= TOTAL_CAP
    ensures Newest(shaper, all, all, false)
  {
    hide Sizes;
    assert all[0..] == all;
  }

  /** `newest_rows`: from the newest message back, until the frame is full. */
  method NewestRows(shaper: Shaper, ms: seq<Message>, owners: seq<nat>, first: nat) returns (rows: seq<Row>,
          truncated: bool)
    ensures Newest(shaper, RowsFrom(shaper, ms, 0, owners, first), rows, truncated)
  {
    hide RowsFrom, RowOf, Sizes, Reversed, Newest;
    ghost var all := RowsFrom(shaper, ms, 0, owners, first);
    rows := [];
    var total := 0;
    var i := |ms|;
    NoRows(shaper, ms, owners, first);
    while i > 0
      invariant 0 <= i <= |ms|
      invariant Reversed(rows) == RowsFrom(shaper, ms, i, owners, first)
      invariant total == Sizes(shaper, Reversed(rows)) <= TOTAL_CAP && |rows| <= MAX_ROWS
    {
      i := i - 1;
      var row := RowOf(shaper, ms[i], i, owners, first);
      RowsStep(shaper, ms, i, owners, first);
      if row.None? {
        continue;
      }
      var size := shaper.size(row.value);
      RowsSuffix(shaper, ms, i, owners, first);
      if |rows| == MAX_ROWS || total + size > TOTAL_CAP {
        NewestFull(shaper, all, row.value, Reversed(rows));
        return Reversed(rows), true;
      }
      SizesFirst(shaper, row.value, Reversed(rows));
      assert Reversed(rows + [row.value]) == [row.value] + Reversed(rows) by {
        assert (rows + [row.value])[..|rows|] == rows;
      }
      rows := rows + [row.value];
      total := total + size;
    }
    rows := Reversed(rows);
    truncated := false;
    NewestAll(shaper, all);
  }

  lemma NewestFull(shaper: Shaper, all: seq<Row>, row: Row, rows: seq<Row>)
    requires |rows| < |all| && [row] + rows == all[|all| - |rows| - 1..]
    requires |rows| <= MAX_ROWS && Sizes(shaper, rows) <= TOTAL_CAP
    requires |rows| == MAX_ROWS || Sizes(shaper, rows) + shaper.size(row) > TOTAL_CAP
    ensures Newest(shaper, all, rows, true)
  {
    hide Sizes;
    var more := [row] + rows;
    assert |rows| < |all| && rows == all[|all| - |rows|..] && all[|all| - |rows| - 1..] == more by {
      assert more[1..] == rows;
      assert all[|all| - |more|..][1..] == all[|all| - |rows|..];
    }
    SizesFirst(shaper, row, rows);
  }

  lemma NoRows(shaper: Shaper, ms: seq<Message>, owners: seq<nat>, first: nat)
    ensures RowsFrom(shaper, ms, |ms|, owners, first) == [] == Reversed([]) && Sizes(shaper, []) == 0
  {
  }

  lemma RowsStep(shaper: Shaper, ms: seq<Message>, i: nat, owners: seq<nat>, first: nat)
    requires i < |ms|
    ensures var row, rest := RowOf(shaper, ms[i], i, owners, first), RowsFrom(shaper, ms, i + 1, owners, first);
            RowsFrom(shaper, ms, i, owners, first) == if row.Some? then [row.value] + rest else rest
  {
    hide RowOf;
  }

  lemma SizesFirst(shaper: Shaper, row: Row, rows: seq<Row>)
    ensures Sizes(shaper, [row] + rows) == shaper.size(row) + Sizes(shaper, rows)
  {
    assert ([row] + rows)[1..] == rows;
  }

  /** No longer suffix of the rows fits, so the rows returned are the longest that do. */
  lemma NewestIsLongest(shaper: Shaper, all: seq<Row>, rows: seq<Row>, truncated: bool, k: nat)
    requires Newest(shaper, all, rows, truncated) && |rows| < k <= |all|
    ensures k > MAX_ROWS || Sizes(shaper, all[|all| - k..]) > TOTAL_CAP
  {
    var tail := all[|all| - |rows| - 1..];
    assert all[|all| - k..] == all[|all| - k..|all| - |rows| - 1] + tail;
    SizesConcat(shaper, all[|all| - k..|all| - |rows| - 1], tail);
  }

  // --------------------------------------------------------- owners of turns

  /** `_turn_owners`: as the window's turns, but a turn inside a summary names the summary. */
  function Owners(ms: seq<Message>): seq<nat> {
    if ms == [] then []
    else
      var last := |ms| - 1;
      Owners(ms[..last]) + Repeat<nat>(last, |Entry(ms[last], last)|)
  }

  method TurnOwners(ms: seq<Message>) returns (owners: seq<nat>)
    ensures owners == Owners(ms)
  {
    owners := [];
    for i := 0 to |ms|
      invariant owners == Owners(ms[..i])
    {
      assert ms[..i + 1][..i] == ms[..i];
      if i == 0 && ms[i].role.System? {
        assert owners + [] == owners;
        continue;
      }
      if ms[i].role.User? {
        if !ms[i].check {
          owners := owners + [i];
        } else {
          assert owners + [] == owners;
        }
        continue;
      }
      var folded := SummaryUserTurns(ms[i]);
      if folded.Some? && folded.value != 0 {
        owners := owners + Repeat<nat>(i, folded.value);
      } else {
        assert owners + [] == owners;
      }
    }
    assert ms[..|ms|] == ms;
  }

  /** The two numberings agree turn by turn, owners never go back, and a turn without a message is in a summary. */
  lemma {:induction false} OwnersAgree(ms: seq<Message>)
    ensures |Owners(ms)| == |WindowTurns(ms)|
    ensures forall n | 0 <= n < |Owners(ms)| ::
              && Owners(ms)[n] < |ms|
              && (if WindowTurns(ms)[n].Some? then WindowTurns(ms)[n] == Some(Owners(ms)[n])
                 else IsSummary(ms[Owners(ms)[n]]))
    ensures forall n, k | 0 <= n < k < |Owners(ms)| :: Owners(ms)[n] <= Owners(ms)[k]
  {
    if ms == [] {
    } else {
      hide Entry, Entries, IsSummary;
      var last := |ms| - 1;
      OwnersAgree(ms[..last]);
      LastEntry(ms, 0);
      assert forall n | 0 <= n < |Entry(ms[last], last)| ::
             if Entry(ms[last], last)[n].Some? then Entry(ms[last], last)[n] == Some(last) else IsSummary(ms[last]);
      OwnersGrow(ms, Owners(ms[..last]), WindowTurns(ms[..last]), Entry(ms[last], last));
    }
  }

  lemma OwnersGrow(ms: seq<Message>, front: seq<nat>, turns: seq<Option<nat>>, more: seq<Option<nat>>)
    requires ms != [] && |front| == |turns|
    requires forall n | 0 <= n < |front| ::
               && front[n] < |ms| - 1
               && (if turns[n].Some? then turns[n] == Some(front[n]) else IsSummary(ms[..|ms| - 1][front[n]]))
    requires forall n, k | 0 <= n < k < |front| :: front[n] <= front[k]
    requires forall n | 0 <= n < |more| ::
               if more[n].Some? then more[n] == Some(|ms| - 1) else IsSummary(ms[|ms| - 1])
    ensures var owners, all := front + Repeat<nat>(|ms| - 1, |more|), turns + more;
            && |owners| == |all|
            && (forall n | 0 <= n < |owners| ::
                  && owners[n] < |ms|
                  && (if all[n].Some? then all[n] == Some(owners[n]) else IsSummary(ms[owners[n]])))
            && forall n, k | 0 <= n < k < |owners| :: owners[n] <= owners[k]
  {
    hide *;
    var owners := front + Repeat<nat>(|ms| - 1, |more|);
    forall n | 0 <= n < |owners| ensures if n < |front| then owners[n] == front[n] else owners[n] == |ms| - 1 {
    }
  }

  lemma HeldConcat(a: seq<nat>, i: nat, n: nat, first: nat, index: nat)
    ensures Held(a + Repeat<nat>(i, n), first, index)
            == Held(a, first, index) + if i != index || first <= |a| then 0 else if first - |a| < n then first - |a|
               else n
    decreases n
  {
    var b := Repeat<nat>(i, n);
    if n == 0 {
      assert a + b == a;
    } else {
      assert (a + b)[..|a + b| - 1] == a + Repeat<nat>(i, n - 1);
      HeldConcat(a, i, n - 1, first, index);
    }
  }

  /** Turns among the first `first` that are held by one of the first `end` messages. */
  function HeldBefore(owners: seq<nat>, first: nat, end: nat): nat {
    if end == 0 then 0 else HeldBefore(owners, first, end - 1) + Held(owners, first, end - 1)
  }

  /** What the rows account for: user rows numbered below `first`, and the turns folded into summaries. */
  function Accounted(rows: seq<Row>, first: nat): nat {
    if rows == [] then 0
    else
      (match rows[0]
       case UserRow(_, index) => if index.Some? && index.value < first then 1 else 0
       case AssistantRow(_, _) => 0
       case SummaryRow(_, folded) => folded)
      + Accounted(rows[1..], first)
  }

  lemma {:induction false} AccountedConcat(a: seq<Row>, b: seq<Row>, first: nat)
    ensures Accounted(a + b, first) == Accounted(a, first) + Accounted(b, first)
  {
    if a == [] {
      assert a + b == b;
    } else {
      assert (a + b)[1..] == a[1..] + b;
      AccountedConcat(a[1..], b, first);
    }
  }

  /** How many of the turns below `first` one message holds. */
  lemma {:induction false} HeldByMessage(ms: seq<Message>, first: nat, index: nat)
    requires index < |ms|
    ensures var at, n := |Owners(ms[..index])|, |Entry(ms[index], index)|;
            Held(Owners(ms), first, index) == if first <= at then 0 else if first - at < n then first - at else n
    ensures Numbered(ms, index) > 0 ==>
            TurnAt(Owners(ms), index) == Some(|Owners(ms[..index])| + Numbered(ms, index) - 1)
    ensures Numbered(ms, index) == 0 ==> TurnAt(Owners(ms), index) == None
    decreases |ms|
  {
    hide Entry, Held, TurnAt, Owners, WindowTurns;
    var last := |ms| - 1;
    var front := ms[..last];
    var n := |Entry(ms[last], last)|;
    OwnersLast(ms);
    HeldConcat(Owners(front), last, n, first, index);
    TurnAtConcat(Owners(front), last, n, index);
    if index == last {
      assert Held(Owners(front), first, index) == 0 && TurnAt(Owners(front), index) == None by {
        OwnersAgree(front);
        HeldAbsent(Owners(front), first, index);
      }
    } else {
      assert front[..index] == ms[..index] && front[index] == ms[index];
      HeldByMessage(front, first, index);
    }
  }

  lemma OwnersLast(ms: seq<Message>)
    requires ms != []
    ensures Owners(ms) == Owners(ms[..|ms| - 1]) + Repeat<nat>(|ms| - 1, |Entry(ms[|ms| - 1], |ms| - 1)|)
  {
    hide Entry;
  }

  /** The turns the message at `index` is numbered for. */
  function Numbered(ms: seq<Message>, index: nat): nat
    requires index < |ms|
  {
    |Entry(ms[index], index)|
  }

  lemma {:induction false} TurnAtConcat(a: seq<nat>, i: nat, n: nat, index: nat)
    ensures TurnAt(a + Repeat<nat>(i, n), index) == if i == index && n > 0 then Some(|a| + n - 1) else TurnAt(a, index)
    decreases n
  {
    var b := Repeat<nat>(i, n);
    if n == 0 {
      assert a + b == a;
    } else {
      assert (a + b)[..|a + b| - 1] == a + Repeat<nat>(i, n - 1);
      TurnAtConcat(a, i, n - 1, index);
    }
  }

  lemma {:induction false} HeldAbsent(owners: seq<nat>, first: nat, index: nat)
    requires index !in owners
    ensures Held(owners, first, index) == 0
  {
    if owners == [] {
    } else {
      HeldAbsent(owners[..|owners| - 1], first, index);
    }
  }

  /** A message's row accounts for exactly the turns below `first` that the message holds. */
  lemma RowAccounts(shaper: Shaper, ms: seq<Message>, first: nat, index: nat)
    requires index < |ms|
    ensures var rows := match RowOf(shaper, ms[index], index, Owners(ms), first) case None => []
            case Some(row) => [row];
            Accounted(rows, first) == Held(Owners(ms), first, index)
  {
    hide Cap, AssistantRowOf, Held, TurnAt, Owners;
    HeldByMessage(ms, first, index);
    var m := ms[index];
    var row := RowOf(shaper, m, index, Owners(ms), first);
    var rows := match row case None => [] case Some(row) => [row];
    if row.Some? {
      assert rows[1..] == [];
      assert Accounted([], first) == 0;
      AssistantRows(shaper, m);
    }
  }

  lemma AssistantRows(shaper: Shaper, m: Message)
    ensures AssistantRowOf(shaper, m).Some? ==> AssistantRowOf(shaper, m).value.AssistantRow?
  {
  }

  /** The rows of the first `end` messages account for the turns those messages hold. */
  lemma {:induction false} RowsAccount(shaper: Shaper, ms: seq<Message>, end: nat, i: nat, first: nat)
    requires i <= end <= |ms|
    ensures Accounted(RowsFrom(shaper, ms[..end], i, Owners(ms), first), first)
            == HeldBefore(Owners(ms), first, end) - HeldBefore(Owners(ms), first, i)
    decreases end - i
  {
    hide RowOf, Owners;
    if i == end {
      assert Accounted([], first) == 0;
    } else {
      RowsAccount(shaper, ms, end, i + 1, first);
      RowAccounts(shaper, ms, first, i);
      var head := match RowOf(shaper, ms[i], i, Owners(ms), first) case None => [] case Some(row) => [row];
      AccountedConcat(head, RowsFrom(shaper, ms[..end], i + 1, Owners(ms), first), first);
      var owners := Owners(ms);
      assert HeldBefore(owners, first, i + 1)
             == HeldBefore(owners, first, (i + 1) - 1) + Held(owners, first, (i + 1) - 1);
    }
  }

  /** Owners below `end`. */
  function OwnedBefore(owners: seq<nat>, end: nat): nat {
    if owners == [] then 0
    else OwnedBefore(owners[..|owners| - 1], end) + if owners[|owners| - 1] < end then 1 else 0
  }

  lemma {:induction false} HeldBeforeStep(owners: seq<nat>, owner: nat, first: nat, end: nat)
    ensures HeldBefore(owners + [owner], first, end)
            == HeldBefore(owners, first, end) + if owner < end && |owners| < first then 1 else 0
    decreases end
  {
    if end > 0 {
      HeldBeforeStep(owners, owner, first, end - 1);
      assert (owners + [owner])[..|owners|] == owners;
    }
  }

  lemma {:induction false} NothingHeld(first: nat, end: nat)
    ensures HeldBefore([], first, end) == 0
  {
    if end > 0 { NothingHeld(first, end - 1); }
  }

  /** As owners never go back, the turns held before `end` are the first so many. */
  lemma {:induction false} HeldIsOwned(owners: seq<nat>, first: nat, end: nat)
    requires forall n, k | 0 <= n < k < |owners| :: owners[n] <= owners[k]
    ensures var before := OwnedBefore(owners, end);
            && HeldBefore(owners, first, end) == (if before < first then before else first)
            && before <= |owners| && (forall n | 0 <= n < |owners| :: owners[n] < end <==> n < before)
  {
    if owners == [] {
      NothingHeld(first, end);
    } else {
      var last := |owners| - 1;
      HeldIsOwned(owners[..last], first, end);
      HeldBeforeStep(owners[..last], owners[last], first, end);
      assert owners[..last] + [owners[last]] == owners;
    }
  }

  /**
   Whatever the history ends at, its rows account for exactly the turns it claims: user rows
   numbered below `first` and the turns folded into its summaries sum to `first`, as soon as
   at least `first` turns are held before the end.
   */
  lemma HistoryAccounts(shaper: Shaper, ms: seq<Message>, end: nat, first: nat)
    requires end <= |ms| && OwnedBefore(Owners(ms), end) >= first
    ensures Accounted(RowsFrom(shaper, ms[..end], 0, Owners(ms), first), first) == first
  {
    hide RowsFrom, Accounted;
    OwnersAgree(ms);
    HeldIsOwned(Owners(ms), first, end);
    RowsAccount(shaper, ms, end, 0, first);
  }

  /** When exactly `first` turns are held before the end, every user row is numbered, and below `first`. */
  lemma {:induction false} NumbersBelow(shaper: Shaper, ms: seq<Message>, end: nat, i: nat, first: nat)
    requires i <= end <= |ms| && OwnedBefore(Owners(ms), end) == first
    ensures forall row | row in RowsFrom(shaper, ms[..end], i, Owners(ms), first) && row.UserRow? ::
              row.index.Some? && row.index.value < first
    decreases end - i
  {
    hide RowOf, Owners, OwnedBefore;
    if i < end {
      NumbersBelow(shaper, ms, end, i + 1, first);
      RowBelow(shaper, ms, end, i, first);
    }
  }

  lemma RowBelow(shaper: Shaper, ms: seq<Message>, end: nat, i: nat, first: nat)
    requires i < end <= |ms| && OwnedBefore(Owners(ms), end) == first
    ensures var row := RowOf(shaper, ms[i], i, Owners(ms), first);
            row.Some? && row.value.UserRow? ==> row.value.index.Some? && row.value.index.value < first
  {
    hide Cap, Held, Owners, OwnedBefore, TurnAt;
    OwnersAgree(ms);
    HeldIsOwned(Owners(ms), first, end);
    HeldByMessage(ms, first, i);
    AssistantRows(shaper, ms[i]);
    hide AssistantRowOf;
  }
}
