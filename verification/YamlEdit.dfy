/**
 The splicer: one value of a text replaced, inserted or removed by slicing
 characters at the marks a composer reports (core/tstd/config_yaml_edit.py and
 core/tstd/config_yaml_nodes.py).
 */
module YamlEdit {
  import opened Text
  import opened YamlValue
  import opened YamlEmit
  import opened YamlBlock

  /** A composed key: where its text starts and ends, and the string it reads as. */
  datatype CKey = CKey(start: nat, end: nat, name: string)

  datatype CKid = CKid(key: Option<CKey>, value: CNode)

  /** A composed node. A block collection's own `end` runs on over trivia and is not relied on. */
  datatype CNode =
    | CScalar(start: nat, end: nat, block: bool, isNull: bool)
    | CColl(isMap: bool, flow: bool, start: nat, end: nat, value: seq<CKid>)

  /** Where one value sits: its parent collection, position and key. */
  datatype Slot = Slot(parent: CNode, index: nat, key: Option<CKey>, value: CNode)

  // -------------------------------------------------------------- positions

  predicate HasPair(text: string) {
    exists i | 0 <= i < |text| - 1 :: text[i] == '\r' && text[i + 1] == '\n'
  }

  function Newline(text: string): string {
    if HasPair(text) then "\r\n" else "\n"
  }

  predicate IsBlock(node: CNode) {
    if node.CScalar? then node.block else !node.flow
  }

  /** The end of a block scalar without the white space its mark ran over. */
  function StripBack(text: string, start: nat, end: nat): (e: nat)
    ensures e <= end && (start <= end ==> start <= e)
  {
    if start < end <= |text| && text[end - 1] in " \t\r\n" then StripBack(text, start, end - 1) else end
  }

  method StripBackLoop(text: string, start: nat, end: nat) returns (e: nat)
    requires end <= |text|
    ensures e == StripBack(text, start, end)
  {
    e := end;
    while e > start && text[e - 1] in " \t\r\n"
      invariant e <= end && StripBack(text, start, e) == StripBack(text, start, end)
    {
      e := e - 1;
    }
  }

  /** One past the last character that belongs to `node`. */
  function ContentEnd(text: string, node: CNode): nat
    decreases node
  {
    match node
    case CScalar(start, end, block, _) => if block then StripBack(text, start, end) else end
    case CColl(isMap, flow, _, end, value) =>
      if flow || value == [] then end
      else
        var last := value[|value| - 1];
        var inner := ContentEnd(text, last.value);
        if isMap && last.key.Some? && last.key.value.end > inner then last.key.value.end else inner
  }

  /** `text.find(c, at)`. */
  function FindChar(text: string, c: char, at: nat): (r: Option<nat>)
    ensures r.Some? ==> at <= r.value < |text| && text[r.value] == c && forall i | at <= i < r.value :: text[i] != c
    ensures r.None? ==> forall i | at <= i < |text| :: text[i] != c
    decreases |text| - at
  {
    if at >= |text| then None else if text[at] == c then Some(at) else FindChar(text, c, at + 1)
  }

  // ---------------------------------------------------------------- walking

  /** The position of `part` among a mapping's keys; an error when it is listed twice. */
  function FindKey(kids: seq<CKid>, part: string): Result<Option<nat>, EditError> {
    if kids == [] then Ok(None)
    else
      var last := |kids| - 1;
      match FindKey(kids[..last], part)
      case Err(e) => Err(e)
      case Ok(found) =>
        if kids[last].key.None? || kids[last].key.value.name != part then Ok(found)
        else if found.Some? then Err(ListedTwice)
        else Ok(Some(last))
  }

  method FindKeyLoop(kids: seq<CKid>, part: string) returns (r: Result<Option<nat>, EditError>)
    ensures r == FindKey(kids, part)
  {
    var found: Option<nat> := None;
    for i := 0 to |kids|
      invariant FindKey(kids[..i], part) == Ok(found)
    {
      assert kids[..i + 1][..i] == kids[..i];
      if kids[i].key.Some? && kids[i].key.value.name == part {
        if found.Some? {
          FindKeyStops(kids, i + 1, part);
          return Err(ListedTwice);
        }
        found := Some(i);
      }
    }
    assert kids[..|kids|] == kids;
    r := Ok(found);
  }

  lemma {:induction false} FindKeyStops(kids: seq<CKid>, i: nat, part: string)
    requires i <= |kids| && FindKey(kids[..i], part).Err?
    ensures FindKey(kids, part) == FindKey(kids[..i], part)
    decreases |kids| - i
  {
    if i < |kids| {
      assert kids[..i + 1][..i] == kids[..i];
      FindKeyStops(kids, i + 1, part);
    } else {
      assert kids[..i] == kids;
    }
  }

  /** The child a path part leads to. */
  function StepInto(node: CNode, part: Part): Result<Option<Slot>, EditError> {
    if node.CScalar? then Ok(None)
    else if node.isMap && part.Name? then
      match FindKey(node.value, part.name)
      case Err(e) => Err(e)
      case Ok(None) => Ok(None)
      case Ok(Some(i)) =>
        if i < |node.value| then Ok(Some(Slot(node, i, node.value[i].key, node.value[i].value))) else Ok(None)
    else if !node.isMap && part.Index? && 0 <= part.index < |node.value| then
      Ok(Some(Slot(node, part.index, None, node.value[part.index].value)))
    else Ok(None)
  }

  datatype Walked = Walked(slots: seq<Slot>, stop: CNode)

  /** The slots along `path` that exist, and the node the walk stopped in. */
  function Walk(node: CNode, path: seq<Part>): (r: Result<Walked, EditError>)
    ensures r.Ok? ==> |r.value.slots| <= |path|
    ensures r.Ok? ==> forall s | s in r.value.slots :: s.parent.CColl? && s.index < |s.parent.value|
    decreases |path|
  {
    if path == [] then Ok(Walked([], node))
    else
      match StepInto(node, path[0])
      case Err(e) => Err(e)
      case Ok(None) => Ok(Walked([], node))
      case Ok(Some(slot)) =>
        match Walk(slot.value, path[1..])
        case Err(e) => Err(e)
        case Ok(Walked(slots, stop)) => Ok(Walked([slot] + slots, stop))
  }

  method WalkLoop(root: CNode, path: seq<Part>) returns (r: Result<Walked, EditError>)
    ensures r == Walk(root, path)
  {
    var slots := [];
    var node := root;
    var i := 0;
    assert path[0..] == path;
    assert forall w: seq<Slot> :: [] + w == w;
    while i < |path|
      invariant 0 <= i <= |path|
      invariant Walk(root, path) ==
                match Walk(node, path[i..])
                case Err(e) => Err(e)
                case Ok(w) => Ok(Walked(slots + w.slots, w.stop))
    {
      assert path[i..][1..] == path[i + 1..];
      var step := StepInto(node, path[i]);
      match step {
        case Err(e) => return Err(e);
        case Ok(None) => assert slots + [] == slots; return Ok(Walked(slots, node));
        case Ok(Some(slot)) =>
          assert forall w: Walked :: slots + ([slot] + w.slots) == (slots + [slot]) + w.slots;
          slots := slots + [slot];
          node := slot.value;
      }
      i := i + 1;
    }
    assert slots + [] == slots;
    r := Ok(Walked(slots, node));
  }

  // ---------------------------------------------------------------- setting

  /** The slot sits inside a flow collection, where no block line may go. */
  predicate InFlow(holder: Option<Slot>) {
    holder.Some? && holder.value.parent.CColl? && holder.value.parent.flow
  }

  /** `|` or `>` and the indicators after it. */
  function HeaderEnd(text: string, start: nat, end: nat): Option<nat> {
    if start < end <= |text| && text[start] in "|>" then Some(Indicators(text, start + 1, end)) else None
  }

  function Indicators(text: string, at: nat, end: nat): nat
    requires end <= |text|
    decreases end - at
  {
    if at < end && text[at] in "0123456789+-" then Indicators(text, at + 1, end) else at
  }

  /** A block scalar given new text, still a block; None when it cannot be. */
  function ReplaceBlockScalar(text: string, key: CKey, node: CNode, value: string, end: nat): Option<string> {
    match BlockScalar(value, Column(text, key.start) + 2)
    case None => None
    case Some(lines) =>
      var headEnd := Eol(text, node.start);
      var afterHeader := match HeaderEnd(text, node.start, headEnd)
                         case None => ""
                         case Some(h) => Slice(text, h, headEnd);
      var nl := Newline(text);
      Some(Upto(text, node.start) + (if lines == [] then "" else lines[0]) + afterHeader + nl
           + Join(lines[if lines == [] then 0 else 1..], nl) + From(text, end))
  }

  /** The lines of a nonempty collection written as a block at `indent`. */
  function CollectionLines(value: Value, indent: nat): seq<string> {
    if value.Dict? then PairLines(value.pairs, indent)
    else if value.List? then ItemLines(value.items, indent)
    else []
  }

  function ReplaceItem(text: string, slot: Slot, value: Value, asBlock: bool): string {
    var node := slot.value;
    var end := if IsBlock(node) then Eol(text, ContentEnd(text, node)) else node.end;
    if InFlow(Some(slot)) || !asBlock then Upto(text, node.start) + FlowText(value) + From(text, end)
    else
      var nl := Newline(text);
      var dash := Column(text, slot.parent.start);
      var lines := ItemLines([value], dash);
      Upto(text, node.start) + Join([lines[0][dash + 2..]] + lines[1..], nl) + From(text, end)
  }

  function Replace(text: string, slot: Slot, value: Value, flow: bool): Result<string, EditError> {
    var node := slot.value;
    var nl := Newline(text);
    var blockOld := IsBlock(node);
    var flowOld := node.CColl? && node.flow && node.value != [];
    var asBlock := NonemptyCollection(value) && !flow && !flowOld && !InFlow(Some(slot));
    match slot.key
    case None => Ok(ReplaceItem(text, slot, value, asBlock))
    case Some(key) =>
      match FindChar(text, ':', key.end)
      case None => Err(NoColon)
      case Some(colon) =>
        var end := if blockOld then Eol(text, ContentEnd(text, node)) else node.end;
        var kept := if node.CScalar? && blockOld && value.Str?
          then ReplaceBlockScalar(text, key, node, value.text, end) else None;
        if kept.Some? then Ok(kept.value)
        else if !asBlock then Ok(Upto(text, colon + 1) + " " + FlowText(value) + From(text, end))
        else
          var indent := if node.CColl? && blockOld then Column(text, node.start) else Column(text, key.start) + 2;
          var lines := Join(CollectionLines(value, indent), nl);
          if blockOld then Ok(Upto(text, colon + 1) + nl + lines + From(text, end))
          else
            var lineEnd := Eol(text, end);
            Ok(Upto(text, colon + 1) + Slice(text, end, lineEnd) + nl + lines + From(text, lineEnd))
  }

  function Append(text: string, holder: Option<Slot>, list: CNode, value: Value, flow: bool): Result<string, EditError>
    requires list.CColl?
  {
    var nl := Newline(text);
    if list.flow then
      if list.value != [] then
        var at := ContentEnd(text, list.value[|list.value| - 1].value);
        Ok(Upto(text, at) + ", " + FlowText(value) + From(text, at))
      else if holder.Some? && holder.value.key.Some? && !flow && !InFlow(holder) then
        var key := holder.value.key.value;
        match FindChar(text, ':', key.end)
        case None => Err(NoColon)
        case Some(colon) =>
          Ok(Upto(text, colon + 1) + nl + Join(ItemLines([value], Column(text, key.start) + 2), nl)
             + From(text, list.end))
      else Ok(Upto(text, list.start) + "[" + FlowText(value) + "]" + From(text, list.end))
    else
      var at := Eol(text, ContentEnd(text, list));
      Ok(Upto(text, at) + nl + Join(ItemLines([value], Column(text, list.start)), nl) + From(text, at))
  }

  function Insert(text: string, holder: Option<Slot>, mapping: CNode, key: string, value: Value, flow: bool)
    : Result<string, EditError>
    requires mapping.CColl?
  {
    var nl := Newline(text);
    if mapping.flow then
      var entry := Quote(key) + ": " + FlowText(value);
      if mapping.value != [] then
        var at := ContentEnd(text, mapping.value[|mapping.value| - 1].value);
        Ok(Upto(text, at) + ", " + entry + From(text, at))
      else if holder.None? || holder.value.key.None? || InFlow(holder) then
        Ok(Upto(text, mapping.start) + "{" + entry + "}" + From(text, mapping.end))
      else
        var held := holder.value.key.value;
        match FindChar(text, ':', held.end)
        case None => Err(NoColon)
        case Some(colon) =>
          Ok(Upto(text, colon + 1) + nl + Join(EntryLines(key, value, Column(text, held.start) + 2, flow), nl)
             + From(text, mapping.end))
    else
      var indent := if mapping.value != [] && mapping.value[0].key.Some?
                    then Column(text, mapping.value[0].key.value.start) else 0;
      var at := Eol(text, ContentEnd(text, mapping));
      var lead := if holder.None? then nl + nl else nl;
      Ok(Upto(text, at) + lead + Join(EntryLines(key, value, indent, flow), nl) + From(text, at))
  }

  /** What `set_value` does once the walk has stopped in `stop` with `rest` of the path left. */
  function Finish(text: string, holder: Option<Slot>, stop: CNode, rest: seq<Part>, value: Value, flow: bool)
    : Result<string, EditError>
    requires rest == [] ==> holder.Some?
  {
    if rest == [] then Replace(text, holder.value, value, flow)
    else if stop.CColl? && !stop.isMap && rest[0].Index? then
      if rest[0].index != |stop.value| then Err(NoSuchItem)
      else
        match Nested(rest[1..], value)
        case Err(e) => Err(e)
        case Ok(v) => Append(text, holder, stop, v, flow)
    else if stop.CColl? && stop.isMap && rest[0].Name? then
      match Nested(rest[1..], value)
      case Err(e) => Err(e)
      case Ok(v) => Insert(text, holder, stop, rest[0].name, v, flow)
    else if stop.CScalar? && stop.isNull && holder.Some? then
      match Nested(rest, value)
      case Err(e) => Err(e)
      case Ok(v) => Replace(text, holder.value, v, flow)
    else Err(NoParent)
  }

  predicate HasUnicodeBreak(text: string) {
    exists i | 0 <= i < |text| :: text[i] as int in {0x85, 0x2028, 0x2029}
  }

  /** A key in a document that has only comments, or nothing at all. */
  function AppendDocument(text: string, path: seq<Part>, value: Value, flow: bool): Result<string, EditError>
    requires path != []
  {
    if !path[0].Name? then Err(NotMapping)
    else
      match Nested(path[1..], value)
      case Err(e) => Err(e)
      case Ok(v) =>
        var nl := Newline(text);
        var lead := if text == "" || text[|text| - 1] == '\n' then "" else nl;
        Ok(text + lead + Join(EntryLines(path[0].name, v, 0, flow), nl) + nl)
  }

  function LastSlot(slots: seq<Slot>): Option<Slot> {
    if slots == [] then None else Some(slots[|slots| - 1])
  }

  /** `set_value`; `root` is what the composer makes of `text`, None for no document. */
  function SetValue(text: string, root: Option<CNode>, path: seq<Part>, value: Value, flow: bool)
    : Result<string, EditError>
  {
    if path == [] then Err(NeedsKey)
    else if HasUnicodeBreak(text) then Err(UnicodeBreak)
    else
      match root
      case None => AppendDocument(text, path, value, flow)
      case Some(node) =>
        if !(node.CColl? && node.isMap) then Err(NotMapping)
        else
          match Walk(node, path)
          case Err(e) => Err(e)
          case Ok(Walked(slots, stop)) =>
            Finish(text, LastSlot(slots), stop, path[|slots|..], value, flow)
  }

  // --------------------------------------------------------------- removing

  function RemoveFlow(text: string, slot: Slot): string
    requires slot.parent.CColl? && slot.index < |slot.parent.value| && |slot.parent.value| >= 2
  {
    var kids := slot.parent.value;
    if slot.index < |kids| - 1 then
      Upto(text, KidStart(kids[slot.index])) + From(text, KidStart(kids[slot.index + 1]))
    else
      Upto(text, ContentEnd(text, kids[slot.index - 1].value)) + From(text, ContentEnd(text, slot.value))
  }

  function KidStart(kid: CKid): nat {
    match kid.key
    case Some(key) => key.start
    case None => kid.value.start
  }

  /** The first key of a list item goes; the lines before the next key move above the item. */
  function RemoveFirstKey(text: string, slot: Slot, key: CKey): string
    requires slot.parent.CColl? && slot.index + 1 < |slot.parent.value|
  {
    var follow := KidStart(slot.parent.value[slot.index + 1]);
    var dashLine := LineStart(text, key.start);
    var afterValue := NextLine(text, Eol(text, ContentEnd(text, slot.value)));
    var between := Slice(text, afterValue, LineStart(text, follow));
    Upto(text, dashLine) + between + Slice(text, dashLine, key.start) + From(text, follow)
  }

  /** `remove_value`'s last step, for the slot the whole path leads to. */
  function RemoveSlot(text: string, holder: Option<Slot>, slot: Slot): Result<string, EditError>
    requires slot.parent.CColl? && slot.index < |slot.parent.value|
  {
    var parent := slot.parent;
    if |parent.value| == 1 then
      match holder
      case None => Err(LastTopLevelKey)
      case Some(h) => Replace(text, h, if parent.isMap then Dict([]) else List([]), true)
    else if parent.flow then Ok(RemoveFlow(text, slot))
    else
      var at := if slot.key.Some? then slot.key.value.start else slot.value.start;
      var start := LineStart(text, at);
      var before := Stripped(Slice(text, start, at));
      if slot.key.None? && before != "-" then Err(SharedLine)
      else if slot.key.Some? && before != "" then
        if slot.index + 1 >= |parent.value| then Err(SharedLine)
        else Ok(RemoveFirstKey(text, slot, slot.key.value))
      else Ok(Upto(text, start) + From(text, NextLine(text, Eol(text, ContentEnd(text, slot.value)))))
  }

  /** `remove_value`: unchanged when the path names nothing. */
  function RemoveValue(text: string, root: Option<CNode>, path: seq<Part>): Result<string, EditError> {
    if path == [] then Err(NeedsKey)
    else if HasUnicodeBreak(text) then Err(UnicodeBreak)
    else if root.None? then Ok(text)
    else
      match Walk(root.value, path)
      case Err(e) => Err(e)
      case Ok(Walked(slots, _)) =>
        if |slots| < |path| then Ok(text)
        else
          RemoveSlot(text, LastSlot(slots[..|slots| - 1]), slots[|slots| - 1])
  }
}
