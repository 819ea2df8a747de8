/**
 Bridged session ids and the rewriting of a paired computer's frames
 (core/tstd/bridge_wire.py).
 */
module BridgeWire {
  import opened Text

  datatype Field = Field(key: string, val: Json)

  /** A parsed JSON value; an object keeps its keys in order, each once. */
  datatype Json =
    | JNull
    | JBool(flag: bool)
    | JNumber(digits: string)
    | JString(text: string)
    | JList(items: seq<Json>)
    | JObject(fields: seq<Field>)

  // ------------------------------------------------------------ bridged ids

  function BridgedId(raw: string, mch: string): string {
    raw + ":" + mch
  }

  predicate Hex(c: char) {
    '0' <= c <= '9' || 'a' <= c <= 'f'
  }

  /** `mch_` and twelve hexadecimal digits. */
  predicate MachineId(s: string) {
    |s| == 16 && s[..4] == "mch_" && forall i | 4 <= i < 16 :: Hex(s[i])
  }

  /** The first colon of `s`, or its length. */
  function FirstColon(s: string): (i: nat)
    ensures i <= |s| && (i < |s| ==> s[i] == ':') && forall j | 0 <= j < i :: s[j] != ':'
  {
    if s == "" || s[0] == ':' then 0 else 1 + FirstColon(s[1..])
  }

  datatype Parts = Parts(raw: string, mch: string)

  /**
   `split_bridged`: the pattern's `$` also stands before one last line break, which the
   parts then leave out.
   */
  function SplitBridged(id: string): Option<Parts> {
    var i := FirstColon(id);
    if i == 0 || i == |id| then None
    else
      var rest := id[i + 1..];
      if MachineId(rest) then Some(Parts(id[..i], rest))
      else if |rest| == 17 && rest[16] == '\n' && MachineId(rest[..16]) then Some(Parts(id[..i], rest[..16]))
      else None
  }

  /** A raw id the grammar can carry. */
  predicate RawId(s: string) {
    s != "" && Lacks(s, ':')
  }

  /** Every bridged id splits into its parts again. */
  lemma SplitJoined(raw: string, mch: string)
    requires RawId(raw) && MachineId(mch)
    ensures SplitBridged(BridgedId(raw, mch)) == Some(Parts(raw, mch))
  {
    var id := BridgedId(raw, mch);
    assert id[|raw|] == ':' && forall j | 0 <= j < |raw| :: id[j] == raw[j];
    assert id[..|raw|] == raw;
    assert id[|raw| + 1..] == mch;
  }

  /** The parts join into the id again, except that a final line break is lost. */
  lemma JoinSplit(id: string)
    requires SplitBridged(id).Some?
    ensures var p := SplitBridged(id).value;
      && RawId(p.raw) && MachineId(p.mch)
      && (BridgedId(p.raw, p.mch) == id <==> id[|id| - 1] != '\n')
      && (BridgedId(p.raw, p.mch) == id || BridgedId(p.raw, p.mch) + "\n" == id)
  {
    var i, p := FirstColon(id), SplitBridged(id).value;
    var rest := id[i + 1..];
    assert id == p.raw + ":" + rest;
    if MachineId(rest) {
      assert id[|id| - 1] == rest[|rest| - 1];
    } else {
      assert rest == p.mch + "\n";
      assert id == BridgedId(p.raw, p.mch) + "\n";
    }
  }

  // -------------------------------------------------------------- rewriting

  predicate EndsWith(s: string, tail: string) {
    |tail| <= |s| && s[|s| - |tail|..] == tail
  }

  predicate IsSessionIdKey(key: string) {
    key == "session_id" || EndsWith(key, "_session_id")
  }

  function Get(fields: seq<Field>, key: string): Option<Json> {
    if fields == [] then None
    else if fields[0].key == key then Some(fields[0].val)
    else Get(fields[1..], key)
  }

  /** `out[key] = val`. */
  function Set(fields: seq<Field>, key: string, val: Json): seq<Field> {
    if fields == [] then [Field(key, val)]
    else if fields[0].key == key then [Field(key, val)] + fields[1..]
    else [fields[0]] + Set(fields[1..], key, val)
  }

  /** The frame's id, when it is a string that is not empty. */
  function IdText(v: Option<Json>): string {
    if v.Some? && v.value.JString? then v.value.text else ""
  }

  /** `rewrite_to_remote`: the computer, and the frame with its top-level id made raw. */
  function RewriteToRemote(frame: seq<Field>): Option<(string, seq<Field>)> {
    match Get(frame, "session_id")
    case Some(JString(id)) =>
      (match SplitBridged(id)
       case None => None
       case Some(Parts(raw, mch)) => Some((mch, Set(frame, "session_id", JString(raw)))))
    case _ => None
  }

  /** What the lane writes under one key. */
  function RewriteField(f: Field, mch: string): Field
    decreases f, 1
  {
    if IsSessionIdKey(f.key) && f.val.JString? && f.val.text != ""
    then Field(f.key, JString(BridgedId(f.val.text, mch)))
    else Field(f.key, RewriteIds(f.val, mch))
  }

  /** `_rewrite_ids`. */
  function RewriteIds(v: Json, mch: string): Json
    decreases v
  {
    match v
    case JObject(fields) => JObject(seq(|fields|, i requires 0 <= i < |fields| => RewriteField(fields[i], mch)))
    case JList(items) => JList(seq(|items|, i requires 0 <= i < |items| => RewriteIds(items[i], mch)))
    case _ => v
  }

  /** A way into a value: a field or an item of it. */
  datatype Step = InField(i: nat) | InItem(i: nat)

  function Follow(v: Json, path: seq<Step>): Option<Json>
    decreases |path|
  {
    if path == [] then Some(v)
    else
      match path[0]
      case InField(i) => if v.JObject? && i < |v.fields| then Follow(v.fields[i].val, path[1..]) else None
      case InItem(i) => if v.JList? && i < |v.items| then Follow(v.items[i], path[1..]) else None
  }

  /** The key a path's last step goes through. */
  function LastKey(v: Json, path: seq<Step>): Option<string>
    decreases |path|
  {
    if path == [] then None
    else
      match path[0]
      case InField(i) =>
        if !(v.JObject? && i < |v.fields|) then None
        else if |path| == 1 then Some(v.fields[i].key)
        else LastKey(v.fields[i].val, path[1..])
      case InItem(i) => if v.JList? && i < |v.items| then LastKey(v.items[i], path[1..]) else None
  }

  /** One value as the lane leaves it: its own text changes only under a session-id key. */
  predicate Carried(was: Json, now: Json, key: Option<string>, mch: string) {
    match was
    case JString(text) =>
      now == if key.Some? && IsSessionIdKey(key.value) && text != "" then JString(BridgedId(text, mch)) else was
    case JObject(fields) =>
      now.JObject? && |now.fields| == |fields| && forall i | 0 <= i < |fields| :: now.fields[i].key == fields[i].key
    case JList(items) => now.JList? && |now.items| == |items|
    case _ => now == was
  }

  /**
   At any depth, under every path: the same fields and items in the same order, every
   nonempty session id suffixed once, and every other text, number and flag as it was.
   */
  lemma {:induction false} RewritesOnlyIds(v: Json, mch: string, path: seq<Step>)
    ensures Follow(v, path).Some? <==> Follow(RewriteIds(v, mch), path).Some?
    ensures LastKey(RewriteIds(v, mch), path) == LastKey(v, path)
    ensures Follow(v, path).Some? && (path != [] || !v.JString?) ==>
              Carried(Follow(v, path).value, Follow(RewriteIds(v, mch), path).value, LastKey(v, path), mch)
    decreases |path|
  {
    hide IsSessionIdKey;
    if path == [] {
    } else {
      var step := path[0];
      if step.InField? && v.JObject? && step.i < |v.fields| {
        var f := v.fields[step.i];
        RewritesOnlyIds(f.val, mch, path[1..]);
        if IsSessionIdKey(f.key) && f.val.JString? && f.val.text != "" && |path| > 1 {
          assert Follow(f.val, path[1..]) == None;
        }
      } else if step.InItem? && v.JList? && step.i < |v.items| {
        RewritesOnlyIds(v.items[step.i], mch, path[1..]);
        if |path| == 1 { assert LastKey(v.items[step.i], path[1..]) == None; }
      }
    }
  }

  /** The suffix taken off again. */
  function StripField(f: Field, mch: string): Field
    decreases f, 1
  {
    if IsSessionIdKey(f.key) && f.val.JString? && EndsWith(f.val.text, ":" + mch) then
      Field(f.key, JString(f.val.text[..|f.val.text| - |mch| - 1]))
    else Field(f.key, StripIds(f.val, mch))
  }

  function StripIds(v: Json, mch: string): Json
    decreases v
  {
    match v
    case JObject(fields) => JObject(seq(|fields|, i requires 0 <= i < |fields| => StripField(fields[i], mch)))
    case JList(items) => JList(seq(|items|, i requires 0 <= i < |items| => StripIds(items[i], mch)))
    case _ => v
  }

  /** Stripping the suffix restores the frame, whatever it holds. */
  lemma {:induction false} StripRestores(v: Json, mch: string)
    ensures StripIds(RewriteIds(v, mch), mch) == v
    decreases v, 0
  {
    hide RewriteField, StripField;
    match v {
      case JObject(fields) =>
        var out := StripIds(RewriteIds(v, mch), mch).fields;
        forall i | 0 <= i < |fields| ensures out[i] == fields[i] {
          FieldRestored(fields[i], mch);
        }
        assert out == fields;
      case JList(items) =>
        var out := StripIds(RewriteIds(v, mch), mch).items;
        forall i | 0 <= i < |items| ensures out[i] == items[i] {
          StripRestores(items[i], mch);
        }
        assert out == items;
      case _ =>
    }
  }

  lemma {:induction false} FieldRestored(f: Field, mch: string)
    ensures StripField(RewriteField(f, mch), mch) == f
    decreases f, 1
  {
    hide IsSessionIdKey, StripIds;
    if IsSessionIdKey(f.key) && f.val.JString? && f.val.text != "" {
      var id := BridgedId(f.val.text, mch);
      assert id[|id| - |mch| - 1..] == ":" + mch && id[..|id| - |mch| - 1] == f.val.text;
    } else {
      StripRestores(f.val, mch);
      assert RewriteIds(f.val, mch).JString? ==> RewriteIds(f.val, mch) == f.val;
      assert f.val.JString? && IsSessionIdKey(f.key) ==> !EndsWith(f.val.text, ":" + mch);
    }
  }

  // ------------------------------------------------------------ whole frames

  /** A computer's own rows as this hub shows them; rows already bridged are left out. */
  function RemoteRows(rows: seq<Json>, mch: string): seq<Json> {
    if rows == [] then []
    else
      var last := rows[|rows| - 1];
      RemoteRows(rows[..|rows| - 1], mch)
      + if last.JObject? && RawId(IdText(Get(last.fields, "session_id")))
        then [JObject(Set(Set(last.fields, "session_id",
             JString(BridgedId(IdText(Get(last.fields, "session_id")), mch))), "machine", JString(mch)))]
        else []
  }

  method CollectRows(rows: seq<Json>, mch: string) returns (out: seq<Json>)
    ensures out == RemoteRows(rows, mch)
  {
    out := [];
    for i := 0 to |rows|
      invariant out == RemoteRows(rows[..i], mch)
    {
      assert rows[..i + 1][..i] == rows[..i];
      if !rows[i].JObject? {
        continue;
      }
      var id := Get(rows[i].fields, "session_id");
      if id.None? || !id.value.JString? || id.value.text == "" || !Lacks(id.value.text, ':') {
        continue;
      }
      var row := Set(rows[i].fields, "session_id", JString(BridgedId(id.value.text, mch)));
      row := Set(row, "machine", JString(mch));
      out := out + [JObject(row)];
    }
    assert rows[..|rows|] == rows;
  }

  lemma {:induction false} SetGet(fields: seq<Field>, key: string, val: Json, other: string)
    ensures Get(Set(fields, key, val), other) == if other == key then Some(val) else Get(fields, other)
  {
    if fields != [] && fields[0].key != key {
      SetGet(fields[1..], key, val, other);
      assert Set(fields, key, val)[1..] == Set(fields[1..], key, val);
    } else if fields != [] {
      assert Set(fields, key, val)[1..] == fields[1..];
    }
  }

  /** Every row shown belongs to that computer and splits into its own id again. */
  lemma {:induction false} RowsBridged(rows: seq<Json>, mch: string, i: nat)
    requires MachineId(mch) && i < |RemoteRows(rows, mch)|
    ensures var row := RemoteRows(rows, mch)[i];
            && row.JObject? && Get(row.fields, "machine") == Some(JString(mch))
            && exists raw :: RawId(raw) && Get(row.fields, "session_id") == Some(JString(BridgedId(raw, mch)))
                             && SplitBridged(BridgedId(raw, mch)) == Some(Parts(raw, mch))
  {
    hide RawId, SplitBridged, MachineId, Get;
    var front := RemoteRows(rows[..|rows| - 1], mch);
    if i < |front| {
      RowsBridged(rows[..|rows| - 1], mch, i);
      assert RemoteRows(rows, mch)[i] == front[i];
    } else {
      var last := rows[|rows| - 1].fields;
      var raw := IdText(Get(last, "session_id"));
      var one := Set(last, "session_id", JString(BridgedId(raw, mch)));
      SetGet(last, "session_id", JString(BridgedId(raw, mch)), "session_id");
      SetGet(one, "machine", JString(mch), "machine");
      SetGet(one, "machine", JString(mch), "session_id");
      SplitJoined(raw, mch);
    }
  }

  function Without(fields: seq<Field>, key: string): seq<Field> {
    if fields == [] then []
    else (if fields[0].key == key then [] else [fields[0]]) + Without(fields[1..], key)
  }

  function Kept(rows: seq<Json>, valid: Json -> bool): seq<Json> {
    if rows == [] then [] else Kept(rows[..|rows| - 1], valid) + if valid(rows[|rows| - 1]) then [rows[|rows| - 1]]
    else []
  }

  /** How the daemon's models read a frame and a row; None for a type they do not know. */
  datatype Schema = Schema(frame: seq<Field> -> Option<bool>, row: Json -> bool)

  /** `rewrite_from_remote`: a frame as the viewer sees it, or None to drop it; `said` is an error's own message. */
  function RewriteFromRemote(frame: seq<Field>, mch: string, name: string, schema: Schema,
          said: string): Option<seq<Field>>
  {
    match Get(frame, "type")
    case Some(JString(kind)) =>
      var id := IdText(Get(frame, "session_id"));
      var valid := schema.frame(frame);
      if id != "" && !Lacks(id, ':') then None
      else if id == "" && kind !in {"session_list", "error"} then None
      else if kind == "session_list" then
        var sessions := Get(frame, "sessions");
        var rows := if sessions.Some? && sessions.value.JList? then sessions.value.items else [];
        Some(Set(Without(frame, "sessions"), "sessions",
                 JList(RemoteRows(if valid == Some(true) then rows else Kept(rows, schema.row), mch))))
      else if valid != Some(true) && id == "" then None
      else
        var out := RewriteIds(JObject(frame), mch).fields;
        if kind != "error" then Some(out)
        else
          var named := Set(out, "machine", JString(mch));
          Some(if id == "" then Set(named, "message", JString("On " + name + ": " + said)) else named)
    case _ => None
  }

  /** What is dropped: no type, a second hop, or machine-wide state that is neither kept kind, or is malformed. */
  lemma DroppedExactly(frame: seq<Field>, mch: string, name: string, schema: Schema, said: string)
    ensures RewriteFromRemote(frame, mch, name, schema, said) == None <==>
            var kind, id := Get(frame, "type"), IdText(Get(frame, "session_id"));
            || kind.None? || !kind.value.JString? || (id != "" && ':' in id)
            || (id == "" && kind.value.text != "session_list"
               && (kind.value.text != "error" || schema.frame(frame) != Some(true)))
  {
    hide RewriteIds, RemoteRows, Set, Kept, Get;
    var id := IdText(Get(frame, "session_id"));
    assert !Lacks(id, ':') <==> ':' in id;
  }

  /** A field of the rewritten frame. */
  lemma {:induction false} RewrittenGet(fields: seq<Field>, mch: string, key: string)
    ensures Get(RewriteIds(JObject(fields), mch).fields, key) ==
            match Get(fields, key)
            case None => None
            case Some(v) => Some(RewriteField(Field(key, v), mch).val)
  {
    hide IsSessionIdKey;
    if fields == [] {
    } else {
      RewrittenGet(fields[1..], mch, key);
      assert RewriteIds(JObject(fields), mch).fields[1..] == RewriteIds(JObject(fields[1..]), mch).fields;
    }
  }

  /**
   A session's own frame always passes, however malformed: its ids suffixed at every depth and
   nothing else changed, but that an error is named for its computer. Going back up, the lane's
   inverse gives the computer and the raw id again.
   */
  lemma SessionFramesPass(frame: seq<Field>, mch: string, name: string, schema: Schema, said: string)
    requires Get(frame, "type").Some? && Get(frame, "type").value.JString?
             && Get(frame, "type").value.text != "session_list"
    requires RawId(IdText(Get(frame, "session_id"))) && MachineId(mch)
    ensures var raw := IdText(Get(frame, "session_id"));
            var out := RewriteFromRemote(frame, mch, name, schema, said);
            var rewritten := RewriteIds(JObject(frame), mch).fields;
            && out == Some(if Get(frame, "type").value.text == "error" then Set(rewritten, "machine", JString(mch))
               else rewritten)
            && StripIds(JObject(rewritten), mch) == JObject(frame)
            && Get(out.value, "session_id") == Some(JString(BridgedId(raw, mch)))
            && RewriteToRemote(out.value) == Some((mch, Set(out.value, "session_id", JString(raw))))
  {
    hide RewriteIds, RemoteRows, Set, StripIds, SplitBridged, MachineId, Get;
    var raw := IdText(Get(frame, "session_id"));
    ObjectRewritten(frame, mch);
    var rewritten := RewriteIds(JObject(frame), mch).fields;
    StripRestores(JObject(frame), mch);
    RewrittenGet(frame, mch, "session_id");
    assert IsSessionIdKey("session_id");
    SetGet(rewritten, "machine", JString(mch), "session_id");
    SplitJoined(raw, mch);
  }

  lemma ObjectRewritten(fields: seq<Field>, mch: string)
    ensures RewriteIds(JObject(fields), mch).JObject?
  {
  }

  // ---------------------------------------------------------------- one hop

  /** A row that carries a bridged id. */
  predicate BridgedRow(row: Json) {
    row.JObject? && !Lacks(IdText(Get(row.fields, "session_id")), ':')
  }

  lemma {:induction false} ShownAreBridged(rows: seq<Json>, mch: string)
    ensures forall row | row in RemoteRows(rows, mch) :: BridgedRow(row)
  {
    hide Set, Get;
    if rows == [] {
    } else {
      var front, last := rows[..|rows| - 1], rows[|rows| - 1];
      ShownAreBridged(front, mch);
      if last.JObject? && RawId(IdText(Get(last.fields, "session_id"))) {
        var raw := IdText(Get(last.fields, "session_id"));
        var one := Set(last.fields, "session_id", JString(BridgedId(raw, mch)));
        SetGet(last.fields, "session_id", JString(BridgedId(raw, mch)), "session_id");
        SetGet(one, "machine", JString(mch), "session_id");
        assert BridgedId(raw, mch)[|raw|] == ':';
      }
    }
  }

  lemma {:induction false} KeptAreRows(rows: seq<Json>, valid: Json -> bool)
    ensures forall row | row in Kept(rows, valid) :: row in rows
  {
    if rows == [] {
    } else {
      KeptAreRows(rows[..|rows| - 1], valid);
    }
  }

  lemma {:induction false} BridgedNotShown(rows: seq<Json>, mch: string)
    requires forall row | row in rows :: BridgedRow(row)
    ensures RemoteRows(rows, mch) == []
  {
    if rows == [] {
    } else {
      assert BridgedRow(rows[|rows| - 1]);
      BridgedNotShown(rows[..|rows| - 1], mch);
    }
  }

  lemma {:induction false} WithoutGet(fields: seq<Field>, key: string, other: string)
    requires other != key
    ensures Get(Without(fields, key), other) == Get(fields, other)
  {
    if fields == [] {
    } else {
      WithoutGet(fields[1..], key, other);
      var one := if fields[0].key == key then [] else [fields[0]];
      assert (one + Without(fields[1..], key))[|one|..] == Without(fields[1..], key);
    }
  }

  /**
   No session crosses two bridges: a session's frame that came over one is dropped at the next, and a
   list of sessions arrives there without a row.
   */
  lemma OneHop(frame: seq<Field>, mch: string, name: string, schema: Schema, said: string, other: string, name': string,
          schema': Schema, said': string)
    requires RewriteFromRemote(frame, mch, name, schema, said).Some?
    ensures var out, list := RewriteFromRemote(frame, mch, name, schema, said).value,
                             Get(frame, "type") == Some(JString("session_list"));
            var next := RewriteFromRemote(out, other, name', schema', said');
            && (!list && IdText(Get(frame, "session_id")) != "" ==> next == None)
            && (list ==> next.Some? && Get(next.value, "sessions") == Some(JList([])))
  {
    hide RewriteIds, RemoteRows, Kept, Set, Without, BridgedRow, Get;
    var kind, id := Get(frame, "type").value.text, IdText(Get(frame, "session_id"));
    if kind == "session_list" {
      ListHop(frame, mch, name, schema, said, other, name', schema', said');
    } else if id != "" {
      ObjectRewritten(frame, mch);
      RewrittenGet(frame, mch, "session_id");
      assert IsSessionIdKey("session_id");
      SetGet(RewriteIds(JObject(frame), mch).fields, "machine", JString(mch), "session_id");
      assert BridgedId(id, mch)[|id|] == ':';
    }
  }

  lemma ListHop(frame: seq<Field>, mch: string, name: string, schema: Schema, said: string, other: string,
          name': string, schema': Schema, said': string)
    requires RewriteFromRemote(frame, mch, name, schema, said).Some?
             && Get(frame, "type") == Some(JString("session_list"))
    ensures var out := RewriteFromRemote(frame, mch, name, schema, said).value;
            var next := RewriteFromRemote(out, other, name', schema', said');
            next.Some? && Get(next.value, "sessions") == Some(JList([]))
  {
    hide RewriteIds, RemoteRows, Kept, Set, Without, BridgedRow, Get;
    var sessions := Get(frame, "sessions");
    var rows := if sessions.Some? && sessions.value.JList? then sessions.value.items else [];
    var shown := RemoteRows(if schema.frame(frame) == Some(true) then rows else Kept(rows, schema.row), mch);
    var bare := Without(frame, "sessions");
    var out := Set(bare, "sessions", JList(shown));
    assert RewriteFromRemote(frame, mch, name, schema, said) == Some(out);
    ListGet(frame, shown, "type");
    ListGet(frame, shown, "session_id");
    SetGet(bare, "sessions", JList(shown), "sessions");
    ShownAreBridged(if schema.frame(frame) == Some(true) then rows else Kept(rows, schema.row), mch);
    KeptAreRows(shown, schema'.row);
    BridgedNotShown(shown, other);
    BridgedNotShown(Kept(shown, schema'.row), other);
    SetGet(Without(out, "sessions"), "sessions", JList([]), "sessions");
  }

  lemma ListGet(frame: seq<Field>, rows: seq<Json>, key: string)
    requires key != "sessions"
    ensures Get(Set(Without(frame, "sessions"), "sessions", JList(rows)), key) == Get(frame, key)
  {
    hide *;
    WithoutGet(frame, "sessions", key);
    SetGet(Without(frame, "sessions"), "sessions", JList(rows), key);
  }
}
