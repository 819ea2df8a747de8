/**
 Block-style lines for new values, and literal block scalars
 (core/tstd/config_yaml_emit.py).
 */
module YamlBlock {
  import opened Text
  import opened Decimal
  import opened YamlValue
  import opened YamlEmit

  // ------------------------------------------------------------ block lines

  /** The lines of `key: value` at `indent`; nested values in block style unless `flow`. */
  function EntryLines(key: string, value: Value, indent: nat, flow: bool): (lines: seq<string>)
    ensures lines != [] && |lines[0]| >= indent && lines[0][..indent] == Spaces(indent)
    decreases value, 1
  {
    if flow || !NonemptyCollection(value) then [Spaces(indent) + KeyText(key) + ": " + FlowText(value)]
    else if value.Dict? then [Spaces(indent) + KeyText(key) + ":"] + PairLines(value.pairs, indent + 2)
    else [Spaces(indent) + KeyText(key) + ":"] + ItemLines(value.items, indent + 2)
  }

  function PairLines(pairs: seq<Pair>, indent: nat): (lines: seq<string>)
    ensures pairs != [] ==> lines != [] && |lines[0]| >= indent && lines[0][..indent] == Spaces(indent)
    decreases pairs, 0
  {
    if pairs == [] then []
    else EntryLines(pairs[0].key, pairs[0].val, indent, false) + PairLines(pairs[1..], indent)
  }

  /** The lines of one item: a mapping's first key sits after the dash. */
  function ItemBody(item: Value, indent: nat): (lines: seq<string>)
    ensures lines != [] && |lines[0]| >= indent + 2 && lines[0][..indent + 2] == Spaces(indent) + "- "
    decreases item, 0
  {
    if item.Dict? && item.pairs != [] then
      var body := PairLines(item.pairs, indent + 2);
      [Spaces(indent) + "- " + body[0][indent + 2..]] + body[1..]
    else [Spaces(indent) + "- " + FlowText(item)]
  }

  function ItemLines(items: seq<Value>, indent: nat): (lines: seq<string>)
    ensures items != [] ==>
              lines != [] && |lines[0]| >= indent + 2 && lines[0][..indent + 2] == Spaces(indent) + "- "
    decreases items, 0
  {
    if items == [] then [] else ItemBody(items[0], indent) + ItemLines(items[1..], indent)
  }

  /** `item_lines` as it runs: one list filled item by item, its mapping lines patched in place. */
  method CollectItemLines(items: seq<Value>, indent: nat) returns (lines: seq<string>)
    ensures lines == ItemLines(items, indent)
  {
    hide ItemLines, PairLines, FlowText, Spaces;
    lines := [];
    assert items[0..] == items;
    NoItems(indent);
    for i := 0 to |items|
      invariant ItemLines(items, indent) == lines + ItemLines(items[i..], indent)
    {
      var item := items[i];
      FirstItem(items, i, indent);
      ghost var before := lines;
      if item.Dict? && item.pairs != [] {
        var body := PairLines(item.pairs, indent + 2);
        body := body[0 := Spaces(indent) + "- " + body[0][indent + 2..]];
        assert body == ItemBody(item, indent);
        lines := lines + body;
      } else {
        lines := lines + [Spaces(indent) + "- " + FlowText(item)];
      }
      assert lines == before + ItemBody(item, indent);
    }
    assert items[|items|..] == [];
  }

  lemma NoItems(indent: nat)
    ensures ItemLines([], indent) == []
  {
  }

  lemma FirstItem(items: seq<Value>, i: nat, indent: nat)
    requires i < |items|
    ensures ItemLines(items[i..], indent) == ItemBody(items[i], indent) + ItemLines(items[i + 1..], indent)
  {
    hide ItemBody;
    assert items[i..][1..] == items[i + 1..];
  }

  datatype EditError =
    | NeedsKey | UnicodeBreak | NotMapping | NoSuchItem | NoParent | ListStartsAtZero
    | ListedTwice | NoColon | LastTopLevelKey | SharedLine

  /** `nest`: the value that holds `value` at `parts` below a missing key. */
  function Nested(parts: seq<Part>, value: Value): Result<Value, EditError>
    decreases |parts|
  {
    if parts == [] then Ok(value)
    else
      match Nested(parts[1..], value)
      case Err(e) => Err(e)
      case Ok(inner) =>
        match parts[0]
        case Index(i) => if i != 0 then Err(ListStartsAtZero) else Ok(List([inner]))
        case Name(key) => Ok(Dict([Pair(key, inner)]))
  }

  /** `nest` as it runs: the value wrapped from the last part outwards. */
  method Nest(parts: seq<Part>, value: Value) returns (r: Result<Value, EditError>)
    ensures r == Nested(parts, value)
  {
    var v := value;
    var i := |parts|;
    assert parts[i..] == [];
    while i > 0
      invariant 0 <= i <= |parts|
      invariant Nested(parts[i..], value) == Ok(v)
    {
      i := i - 1;
      assert parts[i..][1..] == parts[i + 1..];
      match parts[i] {
        case Index(k) =>
          if k != 0 {
            NestedFails(parts[..i], parts[i..], value);
            assert parts == parts[..i] + parts[i..];
            return Err(ListStartsAtZero);
          }
          v := List([v]);
        case Name(key) =>
          v := Dict([Pair(key, v)]);
      }
    }
    assert parts[0..] == parts;
    r := Ok(v);
  }

  lemma {:induction false} NestedFails(before: seq<Part>, parts: seq<Part>, value: Value)
    requires Nested(parts, value).Err?
    ensures Nested(before + parts, value) == Nested(parts, value)
  {
    if before == [] {
      assert before + parts == parts;
    } else {
      assert (before + parts)[1..] == before[1..] + parts;
      NestedFails(before[1..], parts, value);
    }
  }

  /** `nest` builds exactly what a plain edit of null would: lists and mappings on demand. */
  lemma {:induction false} NestedIsWith(parts: seq<Part>, value: Value, held: Value)
    requires parts != [] && Nested(parts, value).Ok?
    requires held == if parts[0].Index? then List([]) else Dict([])
    ensures With(held, parts, value) == Some(Nested(parts, value).value)
    decreases |parts|
  {
    var inner := Nested(parts[1..], value).value;
    assert [] + [inner] == [inner];
    assert parts[0].Name? ==> [] + [Pair(parts[0].name, inner)] == [Pair(parts[0].name, inner)];
    if |parts| > 1 {
      NestedIsWith(parts[1..], value, if parts[1].Index? then List([]) else Dict([]));
    }
  }

  // -------------------------------------------------- literal block scalars

  /** `not line.strip()`. */
  predicate Blank(line: string) {
    forall i | 0 <= i < |line| :: PySpace(line[i])
  }

  /** `text.split("\n")`. */
  function SplitLines(text: string): (lines: seq<string>)
    ensures lines != [] && forall i | 0 <= i < |lines| :: Lacks(lines[i], '\n')
  {
    if text == "" then [""]
    else
      var rest := SplitLines(text[1..]);
      if text[0] == '\n' then [""] + rest else [[text[0]] + rest[0]] + rest[1..]
  }

  lemma {:induction false} JoinSplit(text: string)
    ensures Join(SplitLines(text), "\n") == text
    ensures text != "" && text[|text| - 1] != '\n' ==> SplitLines(text)[|SplitLines(text)| - 1] != ""
    ensures text == "" ==> FirstText(SplitLines(text)) == ""
  {
    if text == "" {
    } else {
      var rest := SplitLines(text[1..]);
      JoinSplit(text[1..]);
      var lines := SplitLines(text);
      if text[0] == '\n' {
        assert lines[1..] == rest;
      } else {
        assert lines[1..] == rest[1..];
      }
      assert text == [text[0]] + text[1..];
    }
  }

  function FirstText(lines: seq<string>): (r: string)
    ensures r == "" <==> forall i | 0 <= i < |lines| :: lines[i] == ""
  {
    if lines == [] then "" else if lines[0] != "" then lines[0] else FirstText(lines[1..])
  }

  predicate EndsWith(s: string, tail: string) {
    |s| >= |tail| && s[|s| - |tail|..] == tail
  }

  function Indented(lines: seq<string>, indent: nat): (r: seq<string>)
    ensures |r| == |lines|
    ensures forall i | 0 <= i < |lines| :: r[i] == if lines[i] == "" then "" else Spaces(indent) + lines[i]
  {
    seq(|lines|, i requires 0 <= i < |lines| => if lines[i] == "" then "" else Spaces(indent) + lines[i])
  }

  /** The text a literal block keeps: everything but one final line break. */
  function Body(text: string): string {
    if EndsWith(text, "\n") then text[..|text| - 1] else text
  }

  /** `block_scalar`: `text` as a literal block at `indent`, or None when it would not read back. */
  function BlockScalar(text: string, indent: nat): Option<seq<string>> {
    if Lacks(text, '\n') || !Lacks(text, '\r') || EndsWith(text, "\n\n")
       || exists i | 0 <= i < |text| :: Unsafe(text[i]) then None
    else
      var lines := SplitLines(Body(text));
      var first := FirstText(lines);
      if first == "" || first[0] in " \t" || exists i | 0 <= i < |lines| :: lines[i] != "" && Blank(lines[i]) then None
      else Some([if EndsWith(text, "\n") then "|" else "|-"] + Indented(lines, indent))
  }

  function LeadingSpaces(s: string): (n: nat)
    ensures n <= |s| && (forall i | 0 <= i < n :: s[i] == ' ') && (n < |s| ==> s[n] != ' ')
  {
    if s == "" || s[0] != ' ' then 0 else 1 + LeadingSpaces(s[1..])
  }

  /** The block's indentation: that of its first line with something on it; no blank line before that one is longer. */
  function BlockIndent(lines: seq<string>): Option<nat> {
    if lines == [] then None
    else if LeadingSpaces(lines[0]) < |lines[0]| then Some(LeadingSpaces(lines[0]))
    else
      match BlockIndent(lines[1..])
      case None => None
      case Some(n) => if |lines[0]| <= n then Some(n) else None
  }

  /** Each line without the block's indentation; None for a line that would end the block. */
  function Outdented(lines: seq<string>, indent: nat): Option<seq<string>> {
    if lines == [] then Some([])
    else
      var blanks := LeadingSpaces(lines[0]);
      match Outdented(lines[1..], indent)
      case None => None
      case Some(rest) =>
        if blanks >= indent then Some([lines[0][indent..]] + rest)
        else if blanks == |lines[0]| then Some([""] + rest)
        else None
  }

  /** A block's lines as text: joined, with one final line break when clipped. */
  function BlockText(clip: bool, body: seq<string>): string {
    Join(body, "\n") + if clip then "\n" else ""
  }

  /**
   The lines under a literal block's header read back (section 8.1 of YAML 1.2):
   indentation from the first non-empty line; clip or strip chomping, with a line
   break after the last line, which is not an empty one.
   */
  function ReadBlock(clip: bool, lines: seq<string>): Option<string> {
    match BlockIndent(lines)
    case None => None
    case Some(n) =>
      match Outdented(lines, n)
      case None => None
      case Some(body) =>
        if body == [] || body[|body| - 1] == "" then None else Some(BlockText(clip, body))
  }

  /** A literal block scalar from its header on: `|` clips, `|-` strips. */
  function ReadLiteral(lines: seq<string>): Option<string> {
    if lines == [] || lines[0] !in ["|", "|-"] then None else ReadBlock(lines[0] == "|", lines[1..])
  }

  lemma {:induction false} BlockIndentOf(lines: seq<string>, indent: nat)
    requires FirstText(lines) != "" && FirstText(lines)[0] != ' '
    ensures BlockIndent(Indented(lines, indent)) == Some(indent)
  {
    if lines[0] == "" {
      assert Indented(lines, indent)[1..] == Indented(lines[1..], indent);
      BlockIndentOf(lines[1..], indent);
    } else {
      assert LeadingSpaces(Spaces(indent) + lines[0]) == indent by {
        var s := Spaces(indent) + lines[0];
        var n := LeadingSpaces(s);
        assert s[indent] == lines[0][0];
      }
    }
  }

  lemma {:induction false} OutdentedOf(lines: seq<string>, indent: nat)
    ensures Outdented(Indented(lines, indent), indent) == Some(lines)
  {
    hide Indented;
    if lines == [] {
    } else {
      var raw := Indented(lines, indent);
      assert raw[1..] == Indented(lines[1..], indent);
      OutdentedOf(lines[1..], indent);
      OutdentedLine(lines[0], indent);
      assert lines == [lines[0]] + lines[1..];
    }
  }

  lemma OutdentedLine(line: string, indent: nat)
    ensures var raw := if line == "" then "" else Spaces(indent) + line;
            var n := LeadingSpaces(raw);
            if n >= indent then raw[indent..] == line else n == |raw| && line == ""
  {
  }

  /** The body of a text that a literal block can hold. */
  lemma BodyOf(text: string)
    requires !EndsWith(text, "\n\n") && !Lacks(text, '\n')
    ensures text == Body(text) + if EndsWith(text, "\n") then "\n" else ""
    ensures Body(text) != "" ==> Body(text)[|Body(text)| - 1] != '\n'
  {
    assert text[|text| - 1..] == [text[|text| - 1]];
    assert |text| >= 2 ==> text[|text| - 2..] == [text[|text| - 2], text[|text| - 1]];
    assert text == text[..|text| - 1] + [text[|text| - 1]];
  }

  lemma IndentedReads(lines: seq<string>, indent: nat, clip: bool)
    requires FirstText(lines) != "" && FirstText(lines)[0] != ' '
    requires lines != [] && lines[|lines| - 1] != ""
    ensures BlockIndent(Indented(lines, indent)) == Some(indent)
    ensures ReadBlock(clip, Indented(lines, indent)) == Some(BlockText(clip, lines))
  {
    hide Outdented, BlockIndent, Indented, FirstText, BlockText;
    BlockIndentOf(lines, indent);
    OutdentedOf(lines, indent);
  }

  /** Whenever a text is written as a literal block, the block reads back as that text. */
  lemma BlockScalarReads(text: string, indent: nat)
    requires BlockScalar(text, indent).Some?
    ensures ReadLiteral(BlockScalar(text, indent).value) == Some(text)
    ensures BlockIndent(BlockScalar(text, indent).value[1..]) == Some(indent)
  {
    hide ReadBlock, BlockIndent, SplitLines, Indented, FirstText, Body;
    var body := Body(text);
    var lines := SplitLines(body);
    var out := BlockScalar(text, indent).value;
    assert out[1..] == Indented(lines, indent);
    BodyOf(text);
    JoinSplit(body);
    IndentedReads(lines, indent, EndsWith(text, "\n"));
  }
}
