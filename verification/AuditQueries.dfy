/**
 The audit ledger's reader (core/tstd/audit_queries.py): the `costs` view (core/tstd/audit.py) and
 the usage rollup over it, as sums over the stored calls.
 */
module AuditQueries {
  import opened Text
  import opened Audit

  // ------------------------------------------------------------ text in order

  /** Strings by code point, as both SQLite and Python compare them. */
  predicate LE(a: string, b: string) {
    a == "" || (b != "" && (a[0] < b[0] || (a[0] == b[0] && LE(a[1..], b[1..]))))
  }

  lemma {:induction false} LETotal(a: string, b: string)
    ensures LE(a, b) || LE(b, a)
    ensures LE(a, b) && LE(b, a) ==> a == b
  {
    if a != "" && b != "" && a[0] == b[0] {
      LETotal(a[1..], b[1..]);
      assert a == [a[0]] + a[1..] && b == [b[0]] + b[1..];
    }
  }

  lemma {:induction false} LETrans(a: string, b: string, c: string)
    requires LE(a, b) && LE(b, c)
    ensures LE(a, c)
  {
    if a != "" && a[0] == b[0] == c[0] {
      LETrans(a[1..], b[1..], c[1..]);
    }
  }

  function Max(a: string, b: string): string {
    if LE(a, b) then b else a
  }

  lemma MaxLaws(a: string, b: string, c: string)
    ensures Max(a, b) == Max(b, a) && Max(Max(a, b), c) == Max(a, Max(b, c))
    ensures Max("", a) == a && Max(a, "") == a
  {
    LETotal(a, b);
    LETotal(b, c);
    LETotal(a, c);
    if LE(a, b) && LE(b, c) {
      LETrans(a, b, c);
    }
    if LE(c, b) && LE(b, a) {
      LETrans(c, b, a);
    }
    if LE(b, a) && LE(a, c) {
      LETrans(b, a, c);
    }
    if LE(b, c) && LE(c, a) {
      LETrans(b, c, a);
    }
  }

  // --------------------------------------------------------------------- sums

  /** What `SUM` and `MAX(day)` add up over calls. */
  datatype Sums = Sums(prompt: nat, cached: nat, completion: nat, cost: real, classifier: real, latest: string)

  const NOTHING := Sums(0, 0, 0, 0.0, 0.0, "")

  function Plus(a: Sums, b: Sums): Sums {
    Sums(a.prompt + b.prompt, a.cached + b.cached, a.completion + b.completion,
         a.cost + b.cost, a.classifier + b.classifier, Max(a.latest, b.latest))
  }

  lemma PlusLaws(a: Sums, b: Sums, c: Sums)
    ensures Plus(a, b) == Plus(b, a) && Plus(Plus(a, b), c) == Plus(a, Plus(b, c))
    ensures Plus(NOTHING, a) == a && Plus(a, NOTHING) == a
  {
    hide Max;
    MaxLaws(a.latest, b.latest, c.latest);
  }

  /** A row of a query: what it is grouped under, and its sums. */
  datatype Group<K> = Group(key: K, sums: Sums)

  function Weight<K>(g: Group<K>, w: K -> bool): Sums {
    if w(g.key) then g.sums else NOTHING
  }

  /** The sums of the rows `w` selects. */
  function Total<K>(groups: seq<Group<K>>, w: K -> bool): Sums {
    if groups == [] then NOTHING else Plus(Total(groups[..|groups| - 1], w), Weight(groups[|groups| - 1], w))
  }

  function Keys<K>(groups: seq<Group<K>>): set<K> {
    if groups == [] then {} else Keys(groups[..|groups| - 1]) + {groups[|groups| - 1].key}
  }

  predicate Apart<K(==)>(groups: seq<Group<K>>) {
    groups == [] || (groups[|groups| - 1].key !in Keys(groups[..|groups| - 1]) && Apart(groups[..|groups| - 1]))
  }

  /** `sums` added to the group of `key`, or a group of its own. */
  function Into<K(==)>(groups: seq<Group<K>>, key: K, sums: Sums): seq<Group<K>> {
    if groups == [] then [Group(key, sums)]
    else
      var front, last := groups[..|groups| - 1], groups[|groups| - 1];
      if last.key == key then front + [Group(key, Plus(last.sums, sums))] else Into(front, key, sums) + [last]
  }

  /** `SELECT f, SUM(...) ... GROUP BY f`. */
  function GroupBy<K, J(==)>(rows: seq<Group<K>>, f: K -> J): seq<Group<J>> {
    if rows == [] then []
    else Into(GroupBy(rows[..|rows| - 1], f), f(rows[|rows| - 1].key), rows[|rows| - 1].sums)
  }

  lemma {:induction false} IntoTotal<K>(groups: seq<Group<K>>, key: K, sums: Sums, w: K -> bool)
    ensures Total(Into(groups, key, sums), w) == Plus(Total(groups, w), if w(key) then sums else NOTHING)
  {
    hide Plus;
    if groups == [] {
      assert [Group(key, sums)][..0] == [];
    } else {
      var front, last := groups[..|groups| - 1], groups[|groups| - 1];
      var before := Total(front, w);
      if last.key == key {
        var grown := Group(key, Plus(last.sums, sums));
        assert (front + [grown])[..|front|] == front;
        PlusLaws(before, last.sums, sums);
        PlusLaws(before, NOTHING, NOTHING);
      } else {
        var more := Into(front, key, sums);
        IntoTotal(front, key, sums, w);
        assert (more + [last])[..|more|] == more;
        var b := if w(key) then sums else NOTHING;
        var c := Weight(last, w);
        assert Plus(Plus(before, b), c) == Plus(Plus(before, c), b) by {
          hide Plus;
          PlusLaws(before, b, c);
          PlusLaws(before, c, b);
          PlusLaws(b, c, before);
        }
      }
    }
  }

  lemma {:induction false} IntoKeys<K>(groups: seq<Group<K>>, key: K, sums: Sums)
    ensures Keys(Into(groups, key, sums)) == Keys(groups) + {key}
    ensures Apart(groups) ==> Apart(Into(groups, key, sums))
  {
    hide Plus;
    if groups == [] {
      assert [Group(key, sums)][..0] == [];
    } else {
      var front, last := groups[..|groups| - 1], groups[|groups| - 1];
      var more := Into(front, key, sums);
      assert (front + [Group(key, Plus(last.sums, sums))])[..|front|] == front;
      assert (more + [last])[..|more|] == more;
      IntoKeys(front, key, sums);
    }
  }

  /** Whatever is selected by the groups' keys sums to the same before and after grouping. */
  lemma {:induction false} GroupsTotal<K, J>(rows: seq<Group<K>>, f: K -> J, w: J -> bool, v: K -> bool)
    requires forall i | 0 <= i < |rows| :: v(rows[i].key) == w(f(rows[i].key))
    ensures Total(GroupBy(rows, f), w) == Total(rows, v)
  {
    hide Plus, Into;
    if rows == [] {
    } else {
      var front, last := rows[..|rows| - 1], rows[|rows| - 1];
      GroupsTotal(front, f, w, v);
      IntoTotal(GroupBy(front, f), f(last.key), last.sums, w);
    }
  }

  lemma {:induction false} GroupsApart<K, J>(rows: seq<Group<K>>, f: K -> J)
    ensures Apart(GroupBy(rows, f))
    ensures forall j :: j in Keys(GroupBy(rows, f)) <==> exists i | 0 <= i < |rows| :: f(rows[i].key) == j
  {
    if rows == [] {
    } else {
      var front, last := rows[..|rows| - 1], rows[|rows| - 1];
      GroupsApart(front, f);
      IntoKeys(GroupBy(front, f), f(last.key), last.sums);
      assert forall i | 0 <= i < |front| :: front[i] == rows[i];
    }
  }

  lemma {:induction false} KeyThere<K>(groups: seq<Group<K>>, i: nat)
    requires i < |groups|
    ensures groups[i].key in Keys(groups)
  {
    if i < |groups| - 1 {
      KeyThere(groups[..|groups| - 1], i);
    }
  }

  lemma {:induction false} NoneSelected<K>(groups: seq<Group<K>>, w: K -> bool)
    requires forall k | k in Keys(groups) :: !w(k)
    ensures Total(groups, w) == NOTHING
  {
    hide Plus, Max;
    if groups == [] {
    } else {
      NoneSelected(groups[..|groups| - 1], w);
      PlusLaws(NOTHING, NOTHING, NOTHING);
    }
  }

  /** With keys apart, a group is all there is under its key. */
  lemma {:induction false} OnlyGroup<K>(groups: seq<Group<K>>, i: nat, w: K -> bool)
    requires i < |groups| && Apart(groups) && forall k | k in Keys(groups) :: w(k) <==> k == groups[i].key
    ensures Total(groups, w) == groups[i].sums
  {
    hide Plus;
    var front, last := groups[..|groups| - 1], groups[|groups| - 1];
    if i == |front| {
      NoneSelected(front, w);
      PlusLaws(last.sums, NOTHING, NOTHING);
    } else {
      KeyThere(front, i);
      OnlyGroup(front, i, w);
      PlusLaws(front[i].sums, NOTHING, NOTHING);
    }
  }

  // ---------------------------------------------------------------- the view

  datatype LineKey = LineKey(sid: Sid, turn: Option<nat>, tier: string, day: string)

  /** The `model_calls` rows of the store, each with what it adds: classifier spend in a column of its own. */
  function Calls(rows: seq<Row>): seq<Group<LineKey>> {
    if rows == [] then []
    else
      Calls(rows[..|rows| - 1])
      + match rows[|rows| - 1]
        case CallRow(sid, turn, e, classifier) =>
          [Group(LineKey(sid, turn, e.tier, e.day),
                 Sums(e.prompt, e.cached, e.completion, if classifier then 0.0 else e.cost,
                      if classifier then e.cost else 0.0, e.day))]
        case _ => []
  }

  /** `CREATE VIEW costs`. */
  function Costs(rows: seq<Row>): seq<Group<LineKey>> {
    GroupBy(Calls(rows), k => k)
  }

  datatype Bucket = BySession | ByDay | ByWeek

  datatype Cell = Cell(key: string, tier: string)

  /** `_BUCKET_KEY`; `monday` gives the day a day's week opened on. */
  function BucketKey(bucket: Bucket, monday: string -> string, k: LineKey): string {
    match bucket
    case BySession => k.sid
    case ByDay => k.day
    case ByWeek => monday(k.day)
  }

  function CellOf(bucket: Bucket, monday: string -> string): LineKey -> Cell {
    k => Cell(BucketKey(bucket, monday, k), k.tier)
  }

  /** The rollup's query: the view grouped by bucket and tier. */
  function Queried(rows: seq<Row>, bucket: Bucket, monday: string -> string): seq<Group<Cell>> {
    GroupBy(Costs(rows), CellOf(bucket, monday))
  }

  /** The rollup reads the view, yet sums the very calls: grouping twice loses and doubles nothing. */
  lemma QueriedTotal(rows: seq<Row>, bucket: Bucket, monday: string -> string, w: Cell -> bool, v: LineKey -> bool)
    requires forall k :: v(k) == w(CellOf(bucket, monday)(k))
    ensures Total(Queried(rows, bucket, monday), w) == Total(Calls(rows), v)
    ensures Apart(Queried(rows, bucket, monday))
  {
    hide Total, GroupBy, CellOf, Calls;
    GroupsTotal(Costs(rows), CellOf(bucket, monday), w, v);
    GroupsTotal(Calls(rows), k => k, v, v);
    GroupsApart(Costs(rows), CellOf(bucket, monday));
  }

  // ------------------------------------------------------------ one scope

  function Where<K>(groups: seq<Group<K>>, p: K -> bool): seq<Group<K>> {
    if groups == [] then []
    else Where(groups[..|groups| - 1], p) + if p(groups[|groups| - 1].key) then [groups[|groups| - 1]] else []
  }

  /** `_aggregate`: the view's rows that `p` keeps, grouped by `key`. */
  function Aggregate<J(==)>(rows: seq<Row>, key: LineKey -> J, p: LineKey -> bool): seq<Group<J>> {
    GroupBy(Where(Costs(rows), p), key)
  }

  lemma {:induction false} WhereTotal<K>(groups: seq<Group<K>>, p: K -> bool, w: K -> bool, v: K -> bool)
    requires forall k :: v(k) == (p(k) && w(k))
    ensures Total(Where(groups, p), w) == Total(groups, v)
  {
    hide Plus;
    if groups == [] {
    } else {
      var front, last := groups[..|groups| - 1], groups[|groups| - 1];
      WhereTotal(front, p, w, v);
      if p(last.key) {
        assert (Where(front, p) + [last])[..|Where(front, p)|] == Where(front, p);
      } else {
        assert Where(front, p) + [] == Where(front, p);
        PlusLaws(Total(front, v), NOTHING, NOTHING);
      }
    }
  }

  /** A scope's rows sum, key by key or together, to the calls the scope takes in. */
  lemma AggregateTotal<J>(rows: seq<Row>, key: LineKey -> J, p: LineKey -> bool, w: J -> bool, u: LineKey -> bool,
          v: LineKey -> bool)
    requires forall k :: u(k) == w(key(k)) && v(k) == (p(k) && w(key(k)))
    ensures Total(Aggregate(rows, key, p), w) == Total(Calls(rows), v)
    ensures Apart(Aggregate(rows, key, p))
  {
    hide Total, GroupBy, Where, Calls;
    GroupsTotal(Where(Costs(rows), p), key, w, u);
    WhereTotal(Costs(rows), p, u, v);
    GroupsTotal(Calls(rows), k => k, v, v);
    GroupsApart(Where(Costs(rows), p), key);
  }

  lemma {:induction false} WhereKeeps<K>(groups: seq<Group<K>>, p: K -> bool, i: nat)
    requires i < |Where(groups, p)|
    ensures p(Where(groups, p)[i].key)
  {
    if i < |Where(groups[..|groups| - 1], p)| {
      WhereKeeps(groups[..|groups| - 1], p, i);
    }
  }

  function TurnColumn(): LineKey -> Option<nat> {
    (k: LineKey) => k.turn
  }

  function InTurns(sid: Sid): LineKey -> bool {
    (k: LineKey) => k.sid == sid && k.turn.Some?
  }

  /** `cost_by_turn`. */
  function CostByTurn(rows: seq<Row>, sid: Sid): seq<Group<Option<nat>>> {
    Aggregate(rows, TurnColumn(), InTurns(sid))
  }

  function OfTurn(sid: Sid, turn: Option<nat>): LineKey -> bool {
    (k: LineKey) => k.sid == sid && k.turn.Some? && k.turn == turn
  }

  /**
   The turn query over a store a writer filled: each line is a turn's, the only one of that turn, sums
   that turn's own calls, and carries no classifier spend.
   */
  lemma TurnsCarryNoClassifier(start: State, events: seq<Event>, sid: Sid, i: nat)
    requires Linked(start.rows) && i < |CostByTurn(Run(start, events).rows, sid)|
    ensures var rows := Run(start, events).rows;
            var line := CostByTurn(rows, sid)[i];
            && line.key.Some? && Apart(CostByTurn(rows, sid))
            && line.sums == Total(Calls(rows), OfTurn(sid, line.key))
            && line.sums.classifier == 0.0
  {
    hide Run, Linked, Total, Plus, CostByTurn, Calls, Keys, Apart;
    LinksHold(start, events);
    var rows := Run(start, events).rows;
    TurnLine(rows, sid, i);
    LinkedUnclassified(rows, OfTurn(sid, CostByTurn(rows, sid)[i].key));
  }

  lemma TurnLine(rows: seq<Row>, sid: Sid, i: nat)
    requires i < |CostByTurn(rows, sid)|
    ensures var line := CostByTurn(rows, sid)[i];
            && line.key.Some? && Apart(CostByTurn(rows, sid))
            && line.sums == Total(Calls(rows), OfTurn(sid, line.key))
  {
    hide Total, Plus, Calls, Costs, Keys, Apart, GroupBy, Where;
    var lines, kept := CostByTurn(rows, sid), Where(Costs(rows), InTurns(sid));
    var turn := lines[i].key;
    KeyThere(lines, i);
    GroupsApart(kept, TurnColumn());
    assert turn in Keys(GroupBy(kept, TurnColumn()));
    var j :| 0 <= j < |kept| && TurnColumn()(kept[j].key) == turn;
    WhereKeeps(Costs(rows), InTurns(sid), j);
    var w: Option<nat> -> bool := t => t == turn;
    AggregateTotal(rows, TurnColumn(), InTurns(sid), w, (k: LineKey) => k.turn == turn, OfTurn(sid, turn));
    OnlyGroup(lines, i, w);
  }

  lemma {:induction false} LinkedUnclassified(rows: seq<Row>, w: LineKey -> bool)
    requires Linked(rows) && forall k :: w(k) ==> k.turn.Some?
    ensures Total(Calls(rows), w).classifier == 0.0
  {
    hide Max, TurnsNumbered;
    if rows == [] {
    } else {
      var front, last := rows[..|rows| - 1], rows[|rows| - 1];
      LinkedFront(rows);
      LinkedUnclassified(front, w);
      var all := Calls(rows);
      if last.CallRow? {
        assert LinkedIn(last, front);
        assert all[..|all| - 1] == Calls(front);
      } else {
        assert all == Calls(front);
      }
    }
  }

  lemma LinkedFront(rows: seq<Row>)
    requires Linked(rows) && rows != []
    ensures Linked(rows[..|rows| - 1])
  {
    var front := rows[..|rows| - 1];
    assert forall i | 0 <= i < |front| :: front[..i] == rows[..i] && front[i] == rows[i];
  }

  // ------------------------------------------------------------------ sorting

  ghost predicate Orders<T(!new)>(le: (T, T) -> bool) {
    && (forall a, b :: le(a, b) || le(b, a))
    && (forall a, b, c :: le(a, b) && le(b, c) ==> le(a, c))
  }

  function Inserted<T>(x: T, xs: seq<T>, le: (T, T) -> bool): seq<T> {
    if xs == [] || le(x, xs[0]) then [x] + xs else [xs[0]] + Inserted(x, xs[1..], le)
  }

  /** Python's `sorted`, by what `le` compares. */
  function Sorted<T>(xs: seq<T>, le: (T, T) -> bool): seq<T> {
    if xs == [] then [] else Inserted(xs[0], Sorted(xs[1..], le), le)
  }

  predicate InOrder<T>(xs: seq<T>, le: (T, T) -> bool) {
    forall i, j | 0 <= i < j < |xs| :: le(xs[i], xs[j])
  }

  lemma {:induction false} InsertedOrder<T(!new)>(x: T, xs: seq<T>, le: (T, T) -> bool)
    requires Orders(le) && InOrder(xs, le)
    ensures InOrder(Inserted(x, xs, le), le) && multiset(Inserted(x, xs, le)) == multiset{x} + multiset(xs)
  {
    hide Orders;
    if xs == [] {
    } else if le(x, xs[0]) {
      forall k | 0 <= k < |xs| ensures le(x, xs[k]) {
        if k > 0 {
          Transits(le, x, xs[0], xs[k]);
        }
      }
      OrderedFront(x, xs, le);
    } else {
      var more := Inserted(x, xs[1..], le);
      InsertedOrder(x, xs[1..], le);
      assert xs == [xs[0]] + xs[1..];
      Either(le, x, xs[0]);
      forall k | 0 <= k < |more| ensures le(xs[0], more[k]) {
        assert more[k] in multiset(more);
        assert more[k] == x || more[k] in xs[1..];
      }
      OrderedFront(xs[0], more, le);
    }
  }

  lemma Transits<T(!new)>(le: (T, T) -> bool, a: T, b: T, c: T)
    requires Orders(le) && le(a, b) && le(b, c)
    ensures le(a, c)
  {
  }

  lemma Either<T(!new)>(le: (T, T) -> bool, a: T, b: T)
    requires Orders(le)
    ensures le(a, b) || le(b, a)
  {
  }

  lemma OrderedFront<T>(x: T, xs: seq<T>, le: (T, T) -> bool)
    requires InOrder(xs, le) && forall k | 0 <= k < |xs| :: le(x, xs[k])
    ensures InOrder([x] + xs, le)
  {
    var all := [x] + xs;
    forall i, j | 0 <= i < j < |all| ensures le(all[i], all[j]) {
      if i > 0 {
        assert all[i] == xs[i - 1];
      }
    }
  }

  lemma {:induction false} SortedOrder<T(!new)>(xs: seq<T>, le: (T, T) -> bool)
    requires Orders(le)
    ensures InOrder(Sorted(xs, le), le) && multiset(Sorted(xs, le)) == multiset(xs)
  {
    hide Orders;
    if xs == [] {
    } else {
      SortedOrder(xs[1..], le);
      InsertedOrder(xs[0], Sorted(xs[1..], le), le);
      assert xs == [xs[0]] + xs[1..];
    }
  }

  // ------------------------------------------------------------------ rollup

  /** A bucket as its recency is compared: the latest day any of its tiers spent on, then its key. */
  datatype Stamp = Stamp(day: string, key: string)

  predicate Newer(a: Stamp, b: Stamp) {
    LE(b.day, a.day) && (b.day == a.day ==> LE(b.key, a.key))
  }

  datatype Ranked = Ranked(rank: nat, row: Group<Cell>)

  predicate Before(a: Ranked, b: Ranked) {
    a.rank < b.rank || (a.rank == b.rank && LE(a.row.key.tier, b.row.key.tier))
  }

  lemma NewerOrders()
    ensures Orders(Newer)
  {
    forall a, b: Stamp ensures Newer(a, b) || Newer(b, a) {
      LETotal(a.day, b.day);
      LETotal(a.key, b.key);
    }
    forall a, b, c: Stamp | Newer(a, b) && Newer(b, c) ensures Newer(a, c) {
      LETrans(c.day, b.day, a.day);
      if c.day == a.day {
        LETotal(a.day, b.day);
        LETrans(c.key, b.key, a.key);
      }
    }
  }

  lemma BeforeOrders()
    ensures Orders(Before)
  {
    forall a, b: Ranked ensures Before(a, b) || Before(b, a) {
      LETotal(a.row.key.tier, b.row.key.tier);
    }
    forall a, b, c: Ranked | Before(a, b) && Before(b, c) ensures Before(a, c) {
      if a.rank == c.rank {
        LETrans(a.row.key.tier, b.row.key.tier, c.row.key.tier);
      }
    }
  }

  function InBucket(key: string): Cell -> bool {
    (c: Cell) => c.key == key
  }

  /** The latest day of a bucket. */
  function Latest(rows: seq<Group<Cell>>, key: string): string {
    Total(rows, InBucket(key)).latest
  }

  /** The buckets, in the order they are first met. */
  function Buckets(rows: seq<Group<Cell>>): (keys: seq<string>)
    ensures forall i, j | 0 <= i < j < |keys| :: keys[i] != keys[j]
    ensures forall i | 0 <= i < |rows| :: rows[i].key.key in keys
  {
    if rows == [] then []
    else
      var before, key := Buckets(rows[..|rows| - 1]), rows[|rows| - 1].key.key;
      if key in before then before else before + [key]
  }

  function Stamps(rows: seq<Group<Cell>>): seq<Stamp> {
    var keys := Buckets(rows);
    seq(|keys|, i requires 0 <= i < |keys| => Stamp(Latest(rows, keys[i]), keys[i]))
  }

  function KeysOf(stamps: seq<Stamp>): seq<string> {
    seq(|stamps|, i requires 0 <= i < |stamps| => stamps[i].key)
  }

  /** `keys[:limit]`. */
  function Cut<T>(xs: seq<T>, limit: Option<int>): (front: seq<T>)
    ensures front <= xs
  {
    match limit
    case None => xs
    case Some(n) =>
      if n >= |xs| then xs else if n >= 0 then xs[..n] else if -n >= |xs| then [] else xs[..|xs| + n]
  }

  /** The buckets a rollup reports, most recent first. */
  function Kept(rows: seq<Group<Cell>>, limit: Option<int>): seq<string> {
    KeysOf(Cut(Sorted(Stamps(rows), Newer), limit))
  }

  function RankOf(kept: seq<string>, key: string): (rank: nat)
    requires key in kept
    ensures rank < |kept| && kept[rank] == key
  {
    if kept[0] == key then 0 else 1 + RankOf(kept[1..], key)
  }

  /** The query's rows of the kept buckets, each with its bucket's rank. */
  function Chosen(rows: seq<Group<Cell>>, kept: seq<string>): seq<Ranked> {
    if rows == [] then []
    else
      var row := rows[|rows| - 1];
      Chosen(rows[..|rows| - 1], kept)
      + if row.key.key in kept then [Ranked(RankOf(kept, row.key.key), row)] else []
  }

  function RowsIn(ranked: seq<Ranked>): seq<Group<Cell>> {
    seq(|ranked|, i requires 0 <= i < |ranked| => ranked[i].row)
  }

  /** `usage_rollup`, on the rows its query gives. */
  function Usage(rows: seq<Group<Cell>>, limit: Option<int>): seq<Group<Cell>> {
    RowsIn(Sorted(Chosen(rows, Kept(rows, limit)), Before))
  }

  // What a limit keeps.

  lemma {:induction false} BucketsExactly(rows: seq<Group<Cell>>, key: string)
    ensures key in Buckets(rows) <==> exists c | c in Keys(rows) :: c.key == key
  {
    if rows == [] {
    } else {
      BucketsExactly(rows[..|rows| - 1], key);
    }
  }

  /**
   The kept buckets are all the buckets, or as many as the limit, and none that is left out is newer
   than one kept.
   */
  lemma LimitKeepsNewest(rows: seq<Group<Cell>>, limit: Option<int>)
    ensures var kept, all := Kept(rows, limit), Buckets(rows);
            && |kept| == |Cut(all, limit)|
            && (forall i | 0 <= i < |kept| :: kept[i] in all)
            && (forall i, j | 0 <= i < j < |kept| ::
                  kept[i] != kept[j]
                    && Newer(Stamp(Latest(rows, kept[i]), kept[i]), Stamp(Latest(rows, kept[j]), kept[j])))
            && (forall i, key | 0 <= i < |kept| && key in all && key !in kept ::
                  Newer(Stamp(Latest(rows, kept[i]), kept[i]), Stamp(Latest(rows, key), key)))
  {
    hide Newer, Latest, Buckets, Sorted, Orders;
    NewerOrders();
    var stamps, sorted := Stamps(rows), Sorted(Stamps(rows), Newer);
    SortedOrder(stamps, Newer);
    SortedStamps(rows);
    SameLength(stamps, sorted);
    var kept, all, cut := Kept(rows, limit), Buckets(rows), Cut(sorted, limit);
    assert forall i | 0 <= i < |cut| :: cut[i] == sorted[i] && kept[i] == sorted[i].key;
    forall i, key | 0 <= i < |kept| && key in all && key !in kept
      ensures Newer(Stamp(Latest(rows, kept[i]), kept[i]), Stamp(Latest(rows, key), key))
    {
      var n :| 0 <= n < |all| && all[n] == key;
      assert stamps[n] in multiset(stamps);
      assert stamps[n] in sorted;
      var m :| 0 <= m < |sorted| && sorted[m] == stamps[n];
      assert m >= |cut|;
    }
  }

  lemma SameLength<T>(a: seq<T>, b: seq<T>)
    requires multiset(a) == multiset(b)
    ensures |a| == |b|
  {
    assert |multiset(a)| == |a| && |multiset(b)| == |b|;
  }

  /** Sorting the stamps leaves each bucket its own stamp, once. */
  lemma SortedStamps(rows: seq<Group<Cell>>)
    ensures var sorted := Sorted(Stamps(rows), Newer);
            && (forall i | 0 <= i < |sorted| ::
                  sorted[i].key in Buckets(rows) && sorted[i].day == Latest(rows, sorted[i].key))
            && (forall i, j | 0 <= i < j < |sorted| :: sorted[i].key != sorted[j].key)
  {
    hide Newer, Latest, Buckets, Sorted;
    NewerOrders();
    var keys, stamps, sorted := Buckets(rows), Stamps(rows), Sorted(Stamps(rows), Newer);
    SortedOrder(stamps, Newer);
    forall i | 0 <= i < |sorted| ensures sorted[i].key in keys && sorted[i].day == Latest(rows, sorted[i].key) {
      assert sorted[i] in multiset(sorted);
      assert sorted[i] in stamps;
    }
    forall i, j | 0 <= i < j < |sorted| ensures sorted[i].key != sorted[j].key {
      if sorted[i].key == sorted[j].key {
        assert sorted[i] == sorted[j];
        Twice(sorted, i, j);
        Once(stamps, sorted[i]);
      }
    }
  }

  lemma Twice<T>(xs: seq<T>, i: nat, j: nat)
    requires i < j < |xs| && xs[i] == xs[j]
    ensures multiset(xs)[xs[i]] >= 2
  {
    assert xs == xs[..i] + [xs[i]] + xs[i + 1..j] + [xs[j]] + xs[j + 1..];
    assert multiset(xs)
           == multiset(xs[..i]) + multiset{xs[i]} + multiset(xs[i + 1..j]) + multiset{xs[j]} + multiset(xs[j + 1..]);
  }

  lemma {:induction false} Once<T>(xs: seq<T>, x: T)
    requires forall i, j | 0 <= i < j < |xs| :: xs[i] != xs[j]
    ensures multiset(xs)[x] <= 1
  {
    if xs == [] {
    } else {
      Once(xs[1..], x);
      assert xs == [xs[0]] + xs[1..];
      assert multiset(xs) == multiset{xs[0]} + multiset(xs[1..]);
      assert x in multiset(xs[1..]) <==> x in xs[1..];
    }
  }

  // What is reported adds up.

  lemma {:induction false} InsertedTotal(x: Ranked, xs: seq<Ranked>, w: Cell -> bool)
    ensures Total(RowsIn(Inserted(x, xs, Before)), w) == Plus(Weight(x.row, w), Total(RowsIn(xs), w))
  {
    hide Plus, Before, Weight, Total;
    if xs == [] || Before(x, xs[0]) {
      FirstTotal(x, xs, w);
    } else {
      var more := Inserted(x, xs[1..], Before);
      InsertedTotal(x, xs[1..], w);
      FirstTotal(xs[0], more, w);
      FirstTotal(xs[0], xs[1..], w);
      assert xs == [xs[0]] + xs[1..];
      var a, b, rest := Weight(xs[0].row, w), Weight(x.row, w), Total(RowsIn(xs[1..]), w);
      PlusLaws(a, b, rest);
      PlusLaws(b, a, rest);
    }
  }

  lemma {:induction false} FirstTotal(x: Ranked, xs: seq<Ranked>, w: Cell -> bool)
    ensures Total(RowsIn([x] + xs), w) == Plus(Weight(x.row, w), Total(RowsIn(xs), w))
  {
    hide Plus, Weight;
    var all := [x] + xs;
    if xs == [] {
      assert RowsIn(all) == [x.row] && [x.row][..0] == [];
      PlusLaws(Weight(x.row, w), NOTHING, NOTHING);
    } else {
      var n := |xs| - 1;
      FirstTotal(x, xs[..n], w);
      assert RowsIn(all)[..n + 1] == RowsIn([x] + xs[..n]);
      assert RowsIn(xs)[..n] == RowsIn(xs[..n]);
      PlusLaws(Weight(x.row, w), Total(RowsIn(xs[..n]), w), Weight(xs[n].row, w));
    }
  }

  lemma {:induction false} SortedTotal(xs: seq<Ranked>, w: Cell -> bool)
    ensures Total(RowsIn(Sorted(xs, Before)), w) == Total(RowsIn(xs), w)
  {
    hide Plus, Before, Weight, Total, Inserted;
    if xs == [] {
    } else {
      SortedTotal(xs[1..], w);
      InsertedTotal(xs[0], Sorted(xs[1..], Before), w);
      FirstTotal(xs[0], xs[1..], w);
      assert xs == [xs[0]] + xs[1..];
    }
  }

  lemma {:induction false} ChosenTotal(rows: seq<Group<Cell>>, kept: seq<string>, w: Cell -> bool, v: Cell -> bool)
    requires forall c :: v(c) == (w(c) && c.key in kept)
    ensures Total(RowsIn(Chosen(rows, kept)), w) == Total(rows, v)
  {
    hide Plus;
    if rows == [] {
    } else {
      var n := |rows| - 1;
      var row, before := rows[n], Chosen(rows[..n], kept);
      ChosenTotal(rows[..n], kept, w, v);
      PlusLaws(Total(rows[..n], v), NOTHING, NOTHING);
      if row.key.key in kept {
        var one := Ranked(RankOf(kept, row.key.key), row);
        assert RowsIn(before + [one])[..|before|] == RowsIn(before);
      } else {
        assert before + [] == before;
      }
    }
  }

  /** The rows reported sum to the calls of the kept buckets, tier by tier or all together: no bucket is cut short. */
  lemma UsageTotal(rows: seq<Row>, bucket: Bucket, monday: string -> string, limit: Option<int>, w: Cell -> bool,
          v: LineKey -> bool)
    requires var q := Queried(rows, bucket, monday);
             forall k :: v(k) == (w(CellOf(bucket, monday)(k)) && BucketKey(bucket, monday, k) in Kept(q, limit))
    ensures Total(Usage(Queried(rows, bucket, monday), limit), w) == Total(Calls(rows), v)
  {
    hide Total, Sorted, Queried, Kept, Chosen, Plus, Calls, Apart;
    var q := Queried(rows, bucket, monday);
    var kept := Kept(q, limit);
    var u: Cell -> bool := c => w(c) && c.key in kept;
    SortedTotal(Chosen(q, kept), w);
    ChosenTotal(q, kept, w, u);
    assert forall k :: CellOf(bucket, monday)(k).key == BucketKey(bucket, monday, k);
    QueriedTotal(rows, bucket, monday, u, v);
  }

  lemma {:induction false} KeptAll(rows: seq<Group<Cell>>, i: nat)
    requires i < |rows|
    ensures rows[i].key.key in Kept(rows, None)
  {
    hide Newer, Latest, Buckets, Sorted, Orders;
    NewerOrders();
    var keys, stamps, sorted := Buckets(rows), Stamps(rows), Sorted(Stamps(rows), Newer);
    SortedOrder(stamps, Newer);
    var n :| 0 <= n < |keys| && keys[n] == rows[i].key.key;
    assert stamps[n] in multiset(stamps);
    assert stamps[n] in sorted;
    var m :| 0 <= m < |sorted| && sorted[m] == stamps[n];
    assert KeysOf(sorted)[m] == keys[n];
  }

  lemma {:induction false} TotalAlike<K>(groups: seq<Group<K>>, w: K -> bool, v: K -> bool)
    requires forall i | 0 <= i < |groups| :: w(groups[i].key) == v(groups[i].key)
    ensures Total(groups, w) == Total(groups, v)
  {
    if groups == [] {
    } else {
      TotalAlike(groups[..|groups| - 1], w, v);
    }
  }

  /** Without a limit the rollup accounts for every call in the store, whatever the bucket. */
  lemma UnlimitedTotal(rows: seq<Row>, bucket: Bucket, monday: string -> string)
    ensures Total(Usage(Queried(rows, bucket, monday), None), (c: Cell) => true)
            == Total(Calls(rows), (k: LineKey) => true)
  {
    hide Total, Sorted, CellOf, Queried, Kept, Chosen, Plus, Calls;
    var q := Queried(rows, bucket, monday);
    var kept := Kept(q, None);
    var all: Cell -> bool, u: Cell -> bool := (c: Cell) => true, (c: Cell) => c.key in kept;
    SortedTotal(Chosen(q, kept), (c: Cell) => true);
    ChosenTotal(q, kept, (c: Cell) => true, u);
    forall i | 0 <= i < |q| ensures u(q[i].key) == all(q[i].key) {
      KeptAll(q, i);
    }
    TotalAlike(q, u, all);
    QueriedTotal(rows, bucket, monday, all, (k: LineKey) => true);
  }

  lemma {:induction false} ChosenRows(rows: seq<Group<Cell>>, kept: seq<string>, i: nat)
    requires i < |Chosen(rows, kept)|
    ensures var c := Chosen(rows, kept)[i];
            c.row in rows && c.row.key.key in kept && c.rank == RankOf(kept, c.row.key.key)
  {
    var n := |rows| - 1;
    if i < |Chosen(rows[..n], kept)| {
      ChosenRows(rows[..n], kept, i);
    }
  }

  lemma {:induction false} AtKey<K>(groups: seq<Group<K>>, g: Group<K>) returns (i: nat)
    requires g in groups
    ensures i < |groups| && groups[i] == g
  {
    i :| 0 <= i < |groups| && groups[i] == g;
  }

  /** Each row reported is exact for its bucket and tier; buckets come in the order kept, tiers in order within one. */
  lemma UsageRows(rows: seq<Row>, bucket: Bucket, monday: string -> string, limit: Option<int>, i: nat)
    requires i < |Usage(Queried(rows, bucket, monday), limit)|
    ensures var q := Queried(rows, bucket, monday);
            var kept, out := Kept(q, limit), Usage(q, limit);
            && out[i].key.key in kept
            && out[i].sums == Total(Calls(rows), k => CellOf(bucket, monday)(k) == out[i].key)
            && forall j | i < j < |out| ::
                 out[j].key.key in kept
                 && (RankOf(kept, out[i].key.key) < RankOf(kept, out[j].key.key)
                     || (out[i].key.key == out[j].key.key && LE(out[i].key.tier, out[j].key.tier)))
  {
    hide Total, CellOf, Queried, Kept, Chosen, Plus, Sorted, LE, Calls, Apart;
    var q := Queried(rows, bucket, monday);
    var kept, out := Kept(q, limit), Usage(q, limit);
    var chosen, sorted := Chosen(q, kept), Sorted(Chosen(q, kept), Before);
    BeforeOrders();
    SortedOrder(chosen, Before);
    forall j | i <= j < |out|
      ensures out[j] in q && out[j].key.key in kept && sorted[j].rank == RankOf(kept, out[j].key.key)
    {
      assert sorted[j] in multiset(sorted);
      var n :| 0 <= n < |chosen| && chosen[n] == sorted[j];
      ChosenRows(q, kept, n);
    }
    var w: Cell -> bool, v: LineKey -> bool := c => c == out[i].key, k => CellOf(bucket, monday)(k) == out[i].key;
    var at := AtKey(q, out[i]);
    QueriedTotal(rows, bucket, monday, w, v);
    OnlyGroup(q, at, w);
  }

  // ----------------------------------------------------- the money, end to end

  /** What a list of ledger entries cost. */
  function CostOf(entries: seq<Entry>): real {
    if entries == [] then 0.0 else CostOf(entries[..|entries| - 1]) + entries[|entries| - 1].cost
  }

  function OfSession(sid: Sid): LineKey -> bool {
    (k: LineKey) => k.sid == sid
  }

  /** What the last row costs a session, on the line of its turns or the classifier's. */
  function LastCost(rows: seq<Row>, sid: Sid, classifier: bool): real
    requires rows != []
  {
    var r := rows[|rows| - 1];
    if r.CallRow? && r.sid == sid && r.classifier == classifier then r.entry.cost else 0.0
  }

  lemma PickedCost(rows: seq<Row>, sid: Sid, classifier: bool)
    requires rows != []
    ensures var pick := EntryOf(sid, classifier);
            CostOf(Picked(rows, pick)) == CostOf(Picked(rows[..|rows| - 1], pick)) + LastCost(rows, sid, classifier)
  {
    hide CostOf;
    var front, last := Picked(rows[..|rows| - 1], EntryOf(sid, classifier)), rows[|rows| - 1];
    if last.CallRow? {
      CostMore(front, last.entry);
    }
    assert front + [] == front;
  }

  lemma CostMore(entries: seq<Entry>, e: Entry)
    ensures CostOf(entries + [e]) == CostOf(entries) + e.cost
  {
    assert (entries + [e])[..|entries|] == entries;
  }

  lemma TotalCost(rows: seq<Row>, sid: Sid)
    requires rows != []
    ensures var t, before := Total(Calls(rows), OfSession(sid)), Total(Calls(rows[..|rows| - 1]), OfSession(sid));
            t.cost == before.cost + LastCost(rows, sid, false)
              && t.classifier == before.classifier + LastCost(rows, sid, true)
  {
    hide Max;
    var front, all := Calls(rows[..|rows| - 1]), Calls(rows);
    if rows[|rows| - 1].CallRow? {
      assert all[..|all| - 1] == front;
    } else {
      assert all == front;
    }
  }

  lemma NothingSpent(sid: Sid)
    ensures Total(Calls([]), OfSession(sid)) == NOTHING && forall c :: CostOf(Picked([], EntryOf(sid, c))) == 0.0
  {
  }

  /** A session's spend in the view is what its rows cost, the classifier's apart. */
  lemma {:induction false} SessionSpend(rows: seq<Row>, sid: Sid)
    ensures var t := Total(Calls(rows), OfSession(sid));
            && t.cost == CostOf(Picked(rows, EntryOf(sid, false)))
            && t.classifier == CostOf(Picked(rows, EntryOf(sid, true)))
  {
    hide LastCost, Plus, Calls, Total, Picked, CostOf, OfSession, EntryOf;
    if rows == [] {
      NothingSpent(sid);
    } else {
      SessionSpend(rows[..|rows| - 1], sid);
      TotalCost(rows, sid);
      PickedCost(rows, sid, false);
      PickedCost(rows, sid, true);
    }
  }

  /**
   From the calls recorded to the bill: over a new store, a closed writer's session costs exactly what
   was recorded for it.
   */
  lemma BillIsRecord(start: State, events: seq<Event>, closing: seq<Event>, sid: Sid)
    requires Fresh(start) && start.rows == [] && Closing(closing)
    requires var s := Run(Run(start, events), closing); s.pending == map[] && s.queue == [] && s.lost == []
    ensures var t := Total(Calls(Run(Run(start, events), closing).rows), OfSession(sid));
            && t.cost == CostOf(Recorded(events, sid, false))
            && t.classifier == CostOf(Recorded(events, sid, true))
  {
    hide Run, Recorded, Total, Fresh;
    var rows := Run(Run(start, events), closing).rows;
    CloseStoresAll(start, events, closing, sid, false);
    CloseStoresAll(start, events, closing, sid, true);
    SessionSpend(rows, sid);
    assert forall c :: Picked(start.rows, EntryOf(sid, c)) == [];
    assert forall c :: Picked(start.rows, EntryOf(sid, c)) + Recorded(events, sid, c) == Recorded(events, sid, c);
  }

  // ------------------------------------------------------------ the loops

  /** The buckets in the order met, and `latest`. */
  method LatestDays(found: seq<Group<Cell>>) returns (met: seq<string>, latest: map<string, string>)
    ensures met == Buckets(found) && (forall k :: k in latest <==> k in met)
    ensures forall k | k in met :: latest[k] == Latest(found, k)
  {
    hide Plus, Max, Latest;
    latest, met := map[], [];
    assert Buckets([]) == [];
    for i := 0 to |found|
      invariant met == Buckets(found[..i])
      invariant forall k :: k in latest <==> k in met
      invariant forall k | k in met :: latest[k] == Latest(found[..i], k)
    {
      var key, day := found[i].key.key, found[i].sums.latest;
      LatestMore(found, i);
      var newest := Max(if key in latest then latest[key] else "", day);
      if key !in latest {
        met := met + [key];
      }
      latest := latest[key := newest];
    }
    assert found[..|found|] == found;
  }

  /** `{k: i for i, k in enumerate(keys)}`. */
  method Ranks(keys: seq<string>) returns (rank: map<string, nat>)
    requires forall i, j | 0 <= i < j < |keys| :: keys[i] != keys[j]
    ensures forall k :: k in rank <==> k in keys
    ensures forall k | k in keys :: rank[k] == RankOf(keys, k)
  {
    rank := map[];
    for i := 0 to |keys|
      invariant forall k :: k in rank <==> k in keys[..i]
      invariant forall k | k in rank :: rank[k] < i && keys[rank[k]] == k
    {
      rank := rank[keys[i] := i];
    }
    assert keys[..|keys|] == keys;
    forall k | k in keys ensures rank[k] == RankOf(keys, k) {
      assert keys[RankOf(keys, k)] == k;
    }
  }

  /** `usage_rollup`: the buckets' latest days, their order and their ranks, then the rows kept and sorted. */
  method UsageRollup(rows: seq<Row>, bucket: Bucket, monday: string -> string, limit: Option<int>)
    returns (out: seq<Group<Cell>>)
    ensures out == Usage(Queried(rows, bucket, monday), limit)
  {
    hide Plus, Max, Sorted, Latest, Buckets, RankOf, Queried;
    var found := Queried(rows, bucket, monday);
    var met, latest := LatestDays(found);
    var stamps := seq(|met|, i requires 0 <= i < |met| => Stamp(latest[met[i]], met[i]));
    assert stamps == Stamps(found);
    var keys := KeysOf(Cut(Sorted(stamps, Newer), limit));
    LimitKeepsNewest(found, limit);
    var rank := Ranks(keys);
    var chosen: seq<Ranked> := [];
    for i := 0 to |found|
      invariant chosen == Chosen(found[..i], keys)
    {
      assert found[..i + 1][..i] == found[..i];
      var key := found[i].key.key;
      if key in rank {
        chosen := chosen + [Ranked(rank[key], found[i])];
      }
    }
    assert found[..|found|] == found;
    out := RowsIn(Sorted(chosen, Before));
  }

  lemma LatestMore(rows: seq<Group<Cell>>, i: nat)
    requires i < |rows|
    ensures var key := rows[i].key.key;
            && Buckets(rows[..i + 1]) == Buckets(rows[..i]) + (if key in Buckets(rows[..i]) then [] else [key])
            && (forall k :: Latest(rows[..i + 1], k)
                              == if k == key then Max(Latest(rows[..i], k), rows[i].sums.latest)
                                 else Latest(rows[..i], k))
            && (key !in Buckets(rows[..i]) ==> Latest(rows[..i], key) == "")
  {
    hide Max;
    var key := rows[i].key.key;
    assert rows[..i + 1][..i] == rows[..i];
    forall k ensures Latest(rows[..i + 1], k)
                     == if k == key then Max(Latest(rows[..i], k), rows[i].sums.latest) else Latest(rows[..i], k)
    {
      MaxLaws(Latest(rows[..i], k), "", "");
    }
    if key !in Buckets(rows[..i]) {
      BucketsExactly(rows[..i], key);
      NoneSelected(rows[..i], InBucket(key));
    }
  }
}
