/**
 The line editors of a hand-edited configuration file (core/tstd/config_write.py): one
 line found and replaced, inserted or deleted, every other line left alone.
 */
module ConfigWrite {
  import opened Text

  // ------------------------------------------------------------------- lines

  /** `line.lstrip()`. */
  function LeftStripped(line: string): (s: string)
    ensures |s| <= |line| && s == line[|line| - |s|..] && (s != "" ==> !PySpace(s[0]))
  {
    if line != "" && PySpace(line[0]) then LeftStripped(line[1..]) else line
  }

  function Indent(line: string): nat {
    |line| - |LeftStripped(line)|
  }

  predicate Blank(line: string) {
    Stripped(line) == ""
  }

  predicate Comment(line: string) {
    Stripped(line) != "" && Stripped(line)[0] == '#'
  }

  /** A line that is neither blank nor a comment. */
  predicate Content(line: string) {
    !Blank(line) && !Comment(line)
  }

  /** What stands before the first colon. */
  function BeforeColon(s: string): string {
    if s == "" || s[0] == ':' then "" else [s[0]] + BeforeColon(s[1..])
  }

  function KeyName(line: string): string {
    Stripped(BeforeColon(Stripped(line)))
  }

  predicate HasKey(line: string, key: string, indent: nat) {
    Content(line) && Indent(line) == indent && KeyName(line) == key
  }

  /**
   `_block_bounds`: one past the block opened at `start`. Blank lines do not end it; a comment
   at or left of the header's indent does, which the source's own note says it never should.
   */
  function BlockEnd(lines: seq<string>, i: nat, headerIndent: nat): (end: nat)
    requires i <= |lines|
    ensures i <= end <= |lines|
    decreases |lines| - i
  {
    if i == |lines| then i
    else if !Blank(lines[i]) && Indent(lines[i]) <= headerIndent then i
    else BlockEnd(lines, i + 1, headerIndent)
  }

  method BlockBounds(lines: seq<string>, start: nat, headerIndent: nat) returns (end: nat)
    requires start < |lines|
    ensures end == BlockEnd(lines, start + 1, headerIndent)
  {
    for i := start + 1 to |lines|
      invariant BlockEnd(lines, i, headerIndent) == BlockEnd(lines, start + 1, headerIndent)
    {
      if Stripped(lines[i]) == "" {
        continue;
      }
      if Indent(lines[i]) <= headerIndent {
        return i;
      }
    }
    end := |lines|;
  }

  /** `_find_key`: the first line of `lines[lo:hi]` that holds the key at that indent. */
  function FindKey(lines: seq<string>, lo: nat, hi: nat, key: string, indent: nat): (at: Option<nat>)
    requires hi <= |lines|
    ensures at.Some? ==> lo <= at.value < hi
    decreases hi - lo
  {
    if lo >= hi then None else if HasKey(lines[lo], key, indent) then Some(lo)
    else FindKey(lines, lo + 1, hi, key, indent)
  }

  lemma {:induction false} FindKeyIs(lines: seq<string>, lo: nat, hi: nat, key: string, indent: nat)
    requires hi <= |lines|
    ensures match FindKey(lines, lo, hi, key, indent)
            case Some(at) => HasKey(lines[at], key, indent) && forall j | lo <= j < at :: !HasKey(lines[j], key, indent)
            case None => forall j | lo <= j < hi :: !HasKey(lines[j], key, indent)
    decreases hi - lo
  {
    hide HasKey;
    if lo < hi { FindKeyIs(lines, lo + 1, hi, key, indent); }
  }

  /** A block's lines are blank or deeper than its header; what ends it is neither. */
  lemma {:induction false} BlockEndIs(lines: seq<string>, i: nat, headerIndent: nat)
    requires i <= |lines|
    ensures var end := BlockEnd(lines, i, headerIndent);
            && (forall j | i <= j < end :: Blank(lines[j]) || Indent(lines[j]) > headerIndent)
            && (end < |lines| ==> !Blank(lines[end]) && Indent(lines[end]) <= headerIndent)
    decreases |lines| - i
  {
    hide Blank, Indent;
    if i < |lines| { BlockEndIs(lines, i + 1, headerIndent); }
  }

  method FindKeyLoop(lines: seq<string>, lo: nat, hi: nat, key: string, indent: nat) returns (at: Option<nat>)
    requires lo <= hi <= |lines|
    ensures at == FindKey(lines, lo, hi, key, indent)
  {
    for i := lo to hi
      invariant FindKey(lines, i, hi, key, indent) == FindKey(lines, lo, hi, key, indent)
    {
      var line := lines[i];
      if Stripped(line) == "" || Comment(line) {
        continue;
      }
      if Indent(line) != indent {
        continue;
      }
      if KeyName(line) == key {
        return Some(i);
      }
    }
    at := None;
  }

  /** The first content line of `lines[lo:hi]`. */
  function FirstContent(lines: seq<string>, lo: nat, hi: nat): (at: Option<nat>)
    requires hi <= |lines|
    ensures at.Some? ==> lo <= at.value < hi
    decreases hi - lo
  {
    if lo >= hi then None else if Content(lines[lo]) then Some(lo) else FirstContent(lines, lo + 1, hi)
  }

  lemma {:induction false} FirstContentIs(lines: seq<string>, lo: nat, hi: nat)
    requires hi <= |lines|
    ensures match FirstContent(lines, lo, hi)
            case Some(at) => Content(lines[at]) && forall j | lo <= j < at :: !Content(lines[j])
            case None => forall j | lo <= j < hi :: !Content(lines[j])
    decreases hi - lo
  {
    hide Content;
    if lo < hi { FirstContentIs(lines, lo + 1, hi); }
  }

  // -------------------------------------------------------------- one tier

  datatype Missing = NoPresets | NoPreset | NoTier

  /** A tier's header line, one past its block, and its keys' indent. */
  datatype Tier = Tier(at: nat, end: nat, indent: nat)

  /** The tier whose header is at that line, with its first content line's indent. */
  function TierAt(lines: seq<string>, at: nat): (t: Tier)
    requires at < |lines|
    ensures t.at == at < t.end <= |lines| && t.indent > 4
  {
    var end := BlockEnd(lines, at + 1, 4);
    var first := FirstContent(lines, at + 1, end);
    BlockEndIs(lines, at + 1, 4);
    FirstContentIs(lines, at + 1, end);
    Tier(at, end, if first.Some? then Indent(lines[first.value]) else 6)
  }

  function FindTier(lines: seq<string>, preset: string, tier: string): (r: Result<Tier, Missing>)
    ensures r.Ok? ==> r.value.at < r.value.end <= |lines| && r.value.indent > 4
  {
    match FindKey(lines, 0, |lines|, "presets", 0)
    case None => Err(NoPresets)
    case Some(presetsAt) =>
      match FindKey(lines, presetsAt + 1, BlockEnd(lines, presetsAt + 1, 0), preset, 2)
      case None => Err(NoPreset)
      case Some(presetAt) =>
        match FindKey(lines, presetAt + 1, BlockEnd(lines, presetAt + 1, 2), tier, 4)
        case None => Err(NoTier)
        case Some(tierAt) =>
          Ok(TierAt(lines, tierAt))
  }

  /** `key: value` at an indent; `value` is its JSON text. */
  function KeyLine(indent: nat, key: string, value: string): string {
    Spaces(indent) + key + ": " + value
  }

  /** A key of the writers, and a value in quotes. */
  predicate PlainKey(key: string) {
    key != "" && key[0] != '#' && forall i | 0 <= i < |key| :: key[i] != ':' && !PySpace(key[i])
  }

  predicate Quoted(value: string) {
    |value| >= 2 && value[0] == '\"' && value[|value| - 1] == '\"'
  }

  /** `# slug:` at the tier's own indent. */
  predicate Placeholder(line: string, indent: nat) {
    var s := LeftStripped(line);
    Indent(line) == indent && s != "" && s[0] == '#' && var rest := LeftStripped(s[1..]);
           |rest| >= 5 && rest[..5] == "slug:"
  }

  function FindPlaceholder(lines: seq<string>, lo: nat, hi: nat, indent: nat): (at: Option<nat>)
    requires hi <= |lines|
    ensures at.Some? ==> lo <= at.value < hi && Placeholder(lines[at.value], indent)
    decreases hi - lo
  {
    if lo >= hi then None else if Placeholder(lines[lo], indent) then Some(lo)
    else FindPlaceholder(lines, lo + 1, hi, indent)
  }

  /** Where a write puts its line: over one, or as a new one. */
  datatype Spot = Over(at: nat) | Before(at: nat)

  function Put(lines: seq<string>, spot: Spot, line: string): seq<string>
    requires if spot.Over? then spot.at < |lines| else spot.at <= |lines|
  {
    match spot
    case Over(at) => lines[at := line]
    case Before(at) => lines[..at] + [line] + lines[at..]
  }

  /** The live line of the key, else (for a slug) its commented placeholder, else right under the header. */
  function SpotFor(lines: seq<string>, t: Tier, key: string): (spot: Spot)
    requires t.at < t.end <= |lines|
    ensures if spot.Over? then t.at < spot.at < t.end else spot.at == t.at + 1
  {
    var live := FindKey(lines, t.at + 1, t.end, key, t.indent);
    if live.Some? then Over(live.value)
    else
      var held := if key == "slug" then FindPlaceholder(lines, t.at + 1, t.end, t.indent) else None;
      if held.Some? then Over(held.value) else Before(t.at + 1)
  }

  /** `save_tier_slug` and `save_tier_credential`, on the file's lines. */
  function SaveKey(lines: seq<string>, preset: string, tier: string, key: string, value: string): Result<seq<string>,
          Missing>
  {
    match FindTier(lines, preset, tier)
    case Err(e) => Err(e)
    case Ok(t) => Ok(Put(lines, SpotFor(lines, t, key), KeyLine(t.indent, key, value)))
  }

  /** `save_tier_credential` without a credential: the live line goes. */
  function DropKey(lines: seq<string>, preset: string, tier: string, key: string): Result<seq<string>, Missing> {
    match FindTier(lines, preset, tier)
    case Err(e) => Err(e)
    case Ok(t) =>
      match FindKey(lines, t.at + 1, t.end, key, t.indent)
      case None => Ok(lines)
      case Some(at) => Ok(lines[..at] + lines[at + 1..])
  }

  /** The line the writers take for the key's own. */
  function LiveLine(lines: seq<string>, preset: string, tier: string, key: string): Option<string> {
    match FindTier(lines, preset, tier)
    case Err(_) => None
    case Ok(t) =>
      match FindKey(lines, t.at + 1, t.end, key, t.indent)
      case None => None
      case Some(at) => Some(lines[at])
  }

  /** The list a writer edits in place. */
  class File {
    var lines: seq<string>

    constructor (lines: seq<string>)
      ensures this.lines == lines
    {
      this.lines := lines;
    }

    /** The tier found step by step. */
    method Locate(preset: string, tier: string) returns (r: Result<Tier, Missing>)
      ensures r == FindTier(lines, preset, tier)
    {
      hide HasKey, Blank, Content, Indent, FindKey, BlockEnd;
      var presetsAt := FindKeyLoop(lines, 0, |lines|, "presets", 0);
      if presetsAt.None? {
        return Err(NoPresets);
      }
      var presetsEnd := BlockBounds(lines, presetsAt.value, 0);
      var presetAt := FindKeyLoop(lines, presetsAt.value + 1, presetsEnd, preset, 2);
      if presetAt.None? {
        return Err(NoPreset);
      }
      var presetEnd := BlockBounds(lines, presetAt.value, 2);
      var tierAt := FindKeyLoop(lines, presetAt.value + 1, presetEnd, tier, 4);
      if tierAt.None? {
        return Err(NoTier);
      }
      var end := BlockBounds(lines, tierAt.value, 4);
      var indent := 6;
      var i := tierAt.value + 1;
      while i < end
        invariant tierAt.value + 1 <= i <= end && indent == 6
        invariant FirstContent(lines, i, end) == FirstContent(lines, tierAt.value + 1, end)
      {
        if Content(lines[i]) {
          indent := Indent(lines[i]);
          break;
        }
        i := i + 1;
      }
      r := Ok(Tier(tierAt.value, end, indent));
    }

    method Save(preset: string, tier: string, key: string, value: string) returns (missing: Option<Missing>)
      modifies this
      ensures match SaveKey(old(lines), preset, tier, key, value)
              case Err(e) => missing == Some(e) && lines == old(lines)
              case Ok(saved) => missing == None && lines == saved
    {
      hide HasKey, FindTier, FindKey, Placeholder, KeyLine;
      var r := Locate(preset, tier);
      if r.Err? {
        return Some(r.error);
      }
      var t := r.value;
      var line := KeyLine(t.indent, key, value);
      var live := FindKeyLoop(lines, t.at + 1, t.end, key, t.indent);
      if live.Some? {
        lines := lines[live.value := line];
        return None;
      }
      var held: Option<nat> := None;
      if key == "slug" {
        var i := t.at + 1;
        while i < t.end && held.None?
          invariant t.at + 1 <= i <= t.end && unchanged(this)
          invariant held.None? ==>
                    FindPlaceholder(lines, i, t.end, t.indent) == FindPlaceholder(lines, t.at + 1, t.end, t.indent)
          invariant held.Some? ==> held == FindPlaceholder(lines, t.at + 1, t.end, t.indent)
          decreases t.end - i, if held.None? then 1 else 0
        {
          if Placeholder(lines[i], t.indent) {
            held := Some(i);
          } else {
            i := i + 1;
          }
        }
      }
      if held.Some? {
        lines := lines[held.value := line];
      } else {
        lines := lines[..t.at + 1] + [line] + lines[t.at + 1..];
      }
      missing := None;
    }

    method Drop(preset: string, tier: string, key: string) returns (missing: Option<Missing>)
      modifies this
      ensures match DropKey(old(lines), preset, tier, key)
              case Err(e) => missing == Some(e) && lines == old(lines)
              case Ok(left) => missing == None && lines == left
    {
      var r := Locate(preset, tier);
      if r.Err? {
        return Some(r.error);
      }
      var live := FindKeyLoop(lines, r.value.at + 1, r.value.end, key, r.value.indent);
      if live.Some? {
        lines := lines[..live.value] + lines[live.value + 1..];
      }
      missing := None;
    }
  }

  // ----------------------------------------------------------- written lines

  lemma {:induction false} SpacesStripped(pad: string, s: string)
    requires s != "" && !PySpace(s[0]) && forall i | 0 <= i < |pad| :: PySpace(pad[i])
    ensures LeftStripped(pad + s) == s
    ensures !PySpace(s[|s| - 1]) ==> Stripped(pad + s) == s
  {
    hide PySpace;
    if pad == "" {
      assert pad + s == s;
    } else {
      assert (pad + s)[1..] == pad[1..] + s;
      SpacesStripped(pad[1..], s);
    }
  }

  lemma {:induction false} KeyBefore(key: string, rest: string)
    requires forall i | 0 <= i < |key| :: key[i] != ':'
    ensures BeforeColon(key + ":" + rest) == key
  {
    if key == "" {
      assert "" + ":" + rest == ":" + rest;
    } else {
      assert (key + ":" + rest)[1..] == key[1..] + ":" + rest;
      KeyBefore(key[1..], rest);
    }
  }

  /** A written line reads as its own key, at its own indent. */
  lemma KeyLineReads(indent: nat, key: string, value: string)
    requires PlainKey(key) && Quoted(value)
    ensures HasKey(KeyLine(indent, key, value), key, indent)
  {
    hide Stripped, BeforeColon, LeftStripped, Spaces, KeyLine;
    var s := key + ": " + value;
    LineParts(indent, key, value);
    SpacesStripped(Spaces(indent), s);
    KeyBefore(key, " " + value);
    SpacesStripped("", key);
    PaddedLength(indent, s);
  }

  lemma LineParts(indent: nat, key: string, value: string)
    requires PlainKey(key) && Quoted(value)
    ensures var s := key + ": " + value;
            && KeyLine(indent, key, value) == Spaces(indent) + s && s == key + ":" + (" " + value)
            && s[0] == key[0] && s[|s| - 1] == '\"' && !PySpace(s[0]) && !PySpace(s[|s| - 1]) && Spaces(0) + key == key
            && !PySpace(key[|key| - 1])
  {
    hide Spaces;
  }

  lemma PaddedLength(indent: nat, s: string)
    ensures |Spaces(indent) + s| - |s| == indent
  {
  }

  // --------------------------------------------------------------- lens laws

  /** A line that belongs to the body of a tier: no header of a block around it. */
  predicate Inner(line: string) {
    !Blank(line) && Indent(line) > 4
  }

  /** Keys at the outer indents are found at the same place when only inner lines after it change. */
  lemma {:induction false} FindSame(a: seq<string>, b: seq<string>, lo: nat, hiA: nat, hiB: nat, key: string,
          indent: nat, at: nat)
    requires hiA <= |a| && hiB <= |b| && lo <= at < hiA && at < hiB
    requires FindKey(a, lo, hiA, key, indent) == Some(at)
    requires forall j | lo <= j <= at :: b[j] == a[j]
    ensures FindKey(b, lo, hiB, key, indent) == Some(at)
    decreases at - lo
  {
    if lo < at {
      FindSame(a, b, lo + 1, hiA, hiB, key, indent, at);
    }
  }

  /** A block still covers an index when the lines up to it are the same. */
  lemma {:induction false} BlockCovers(a: seq<string>, b: seq<string>, lo: nat, headerIndent: nat, at: nat)
    requires lo <= at < |a| && at < |b| && at < BlockEnd(a, lo, headerIndent)
    requires forall j | lo <= j <= at :: b[j] == a[j]
    ensures at < BlockEnd(b, lo, headerIndent)
    decreases at - lo
  {
    hide Blank, Indent;
    if lo < at {
      BlockCovers(a, b, lo + 1, headerIndent, at);
    }
  }

  /** One line replaced by an inner one, or one put in: the block ends at the same line. */
  lemma {:induction false} BlockEndPut(lines: seq<string>, lo: nat, spot: Spot, line: string)
    requires lo <= |lines| && Inner(line)
    requires if spot.Over? then lo <= spot.at < BlockEnd(lines, lo, 4) else spot.at == lo
    ensures BlockEnd(Put(lines, spot, line), lo, 4) == BlockEnd(lines, lo, 4) + if spot.Over? then 0 else 1
    decreases |lines| - lo
  {
    var out := Put(lines, spot, line);
    if spot.Over? {
      if lo < spot.at {
        BlockEndPut(lines, lo + 1, spot, line);
      } else {
        BlockEndSame(lines, out, lo + 1, lo + 1);
      }
    } else {
      assert out[lo] == line;
      BlockEndSame(lines, out, lo, lo + 1);
    }
  }

  lemma {:induction false} BlockEndSame(a: seq<string>, b: seq<string>, i: nat, j: nat)
    requires i <= |a| && j <= |b| && a[i..] == b[j..]
    ensures BlockEnd(b, j, 4) - j == BlockEnd(a, i, 4) - i
    decreases |a| - i
  {
    assert |a[i..]| == |b[j..]|;
    if i < |a| {
      assert a[i] == a[i..][0] && b[j] == b[j..][0];
      assert a[i + 1..] == a[i..][1..] && b[j + 1..] == b[j..][1..];
      BlockEndSame(a, b, i + 1, j + 1);
    }
  }

  /** Where nothing changes up to the tier's header, the header is found again. */
  lemma HeaderKept(lines: seq<string>, out: seq<string>, preset: string, tier: string)
    requires FindTier(lines, preset, tier).Ok?
    requires var at := FindTier(lines, preset, tier).value.at;
             at < |out| && forall j | 0 <= j <= at :: out[j] == lines[j]
    ensures FindTier(out, preset, tier).Ok?
            && FindTier(out, preset, tier).value.at == FindTier(lines, preset, tier).value.at
    ensures FindTier(out, preset, tier).value.end == BlockEnd(out, FindTier(out, preset, tier).value.at + 1, 4)
    ensures FindTier(lines, preset, tier).value.end == BlockEnd(lines, FindTier(lines, preset, tier).value.at + 1, 4)
  {
    hide HasKey, Blank;
    var p, q := TierPath(lines, preset, tier);
    var at := FindTier(lines, preset, tier).value.at;
    FindSame(lines, out, 0, |lines|, |out|, "presets", 0, p);
    SameUnder(lines, out, p, 0, preset, 2, q);
    SameUnder(lines, out, q, 2, tier, 4, at);
    var t := FindTier(out, preset, tier).value;
    assert FindTier(out, preset, tier).Ok?
           && t.at == at && t.end == BlockEnd(out, at + 1, 4) by {
      hide Indent, FirstContent, FindKey, BlockEnd, Content;
    }
  }

  /** The headers on the way to a tier. */
  lemma TierPath(lines: seq<string>, preset: string, tier: string) returns (p: nat, q: nat)
    requires FindTier(lines, preset, tier).Ok?
    ensures var t := FindTier(lines, preset, tier).value;
            && p < q < t.at < |lines| && t.end == BlockEnd(lines, t.at + 1, 4)
            && FindKey(lines, 0, |lines|, "presets", 0) == Some(p)
            && FindKey(lines, p + 1, BlockEnd(lines, p + 1, 0), preset, 2) == Some(q)
            && FindKey(lines, q + 1, BlockEnd(lines, q + 1, 2), tier, 4) == Some(t.at)
  {
    hide Indent, FirstContent, FindKey, BlockEnd, Content;
    p := FindKey(lines, 0, |lines|, "presets", 0).value;
    q := FindKey(lines, p + 1, BlockEnd(lines, p + 1, 0), preset, 2).value;
  }

  /** A key found in a header's block is found there again. */
  lemma SameUnder(lines: seq<string>, out: seq<string>, header: nat, headerIndent: nat, key: string, indent: nat,
          at: nat)
    requires header < |lines|
             && FindKey(lines, header + 1, BlockEnd(lines, header + 1, headerIndent), key, indent) == Some(at)
    requires at < |lines| && at < |out| && forall j | 0 <= j <= at :: out[j] == lines[j]
    ensures header < at && FindKey(out, header + 1, BlockEnd(out, header + 1, headerIndent), key, indent) == Some(at)
  {
    hide HasKey, Blank, Indent, FindKey, BlockEnd, Content;
    BlockCovers(lines, out, header + 1, headerIndent, at);
    FindSame(lines, out, header + 1, BlockEnd(lines, header + 1, headerIndent),
             BlockEnd(out, header + 1, headerIndent), key, indent, at);
  }

  /** The first content line's indent, or the default. */
  function IndentOf(lines: seq<string>, lo: nat, hi: nat): nat
    requires hi <= |lines|
  {
    var first := FirstContent(lines, lo, hi);
    if first.Some? then Indent(lines[first.value]) else 6
  }

  lemma TierIndent(lines: seq<string>, preset: string, tier: string)
    requires FindTier(lines, preset, tier).Ok?
    ensures var t := FindTier(lines, preset, tier).value; t.indent == IndentOf(lines, t.at + 1, t.end)
  {
  }

  /** A content line at the tier's indent put in place of one, or first, keeps the tier's indent. */
  lemma IndentKept(lines: seq<string>, lo: nat, hi: nat, spot: Spot, line: string)
    requires lo <= hi <= |lines| && Content(line) && Indent(line) == IndentOf(lines, lo, hi)
    requires if spot.Over?
             then lo <= spot.at < hi
             && (Content(lines[spot.at]) ==> Indent(lines[spot.at]) == Indent(line)) else spot.at == lo
    ensures IndentOf(Put(lines, spot, line), lo, hi + if spot.Over? then 0 else 1) == Indent(line)
  {
    hide Content, Indent, FirstContent;
    var out := Put(lines, spot, line);
    var hi' := hi + if spot.Over? then 0 else 1;
    FirstContentIs(lines, lo, hi);
    FirstContentIs(out, lo, hi');
    var first := FirstContent(out, lo, hi');
    assert out[spot.at] == line;
    assert first.Some?;
    assert spot.Over? ==> forall j | 0 <= j < |lines| && j != spot.at :: out[j] == lines[j];
    assert (spot.Over? && first.value != spot.at) ==> FirstContent(lines, lo, hi) == first;
  }

  /** The write lands where the key is then found: the same tier, the same indent, the written line. */
  lemma SaveLands(lines: seq<string>, preset: string, tier: string, key: string, value: string)
    requires PlainKey(key) && Quoted(value) && FindTier(lines, preset, tier).Ok?
    ensures var t := FindTier(lines, preset, tier).value;
            var spot := SpotFor(lines, t, key);
            var out := SaveKey(lines, preset, tier, key, value).value;
            && out == Put(lines, spot, KeyLine(t.indent, key, value))
            && FindTier(out, preset, tier) == Ok(Tier(t.at, t.end + (if spot.Over? then 0 else 1), t.indent))
            && FindKey(out, t.at + 1, t.end + (if spot.Over? then 0 else 1), key, t.indent) == Some(spot.at)
            && out[spot.at] == KeyLine(t.indent, key, value)
  {
    hide FindTier, Placeholder, KeyLine, FindKey, BlockEnd, IndentOf, SpotFor, Blank, FirstContent, PlainKey;
    var t := FindTier(lines, preset, tier).value;
    var spot := SpotFor(lines, t, key);
    var line := KeyLine(t.indent, key, value);
    var out := Put(lines, spot, line);
    KeyLineReads(t.indent, key, value);
    assert Inner(line) && Content(line) && Indent(line) == t.indent;
    assert forall j | 0 <= j <= t.at :: out[j] == lines[j];
    HeaderKept(lines, out, preset, tier);
    TierIndent(lines, preset, tier);
    TierIndent(out, preset, tier);
    BlockEndPut(lines, t.at + 1, spot, line);
    if spot.Over? { SpotIndent(lines, t, key, spot); }
    IndentKept(lines, t.at + 1, t.end, spot, line);
    SpotFirst(lines, t, key, spot, line);
  }

  lemma SpotIndent(lines: seq<string>, t: Tier, key: string, spot: Spot)
    requires t.at < t.end <= |lines| && spot == SpotFor(lines, t, key) && spot.Over?
    ensures Content(lines[spot.at]) ==> Indent(lines[spot.at]) == t.indent
  {
    hide FindKey, Content;
    FindKeyIs(lines, t.at + 1, t.end, key, t.indent);
  }

  /** No line before the spot holds the key. */
  lemma SpotFirst(lines: seq<string>, t: Tier, key: string, spot: Spot, line: string)
    requires t.at < t.end <= |lines| && spot == SpotFor(lines, t, key) && HasKey(line, key, t.indent)
    ensures FindKey(Put(lines, spot, line), t.at + 1, t.end + (if spot.Over? then 0 else 1), key, t.indent)
            == Some(spot.at)
  {
    hide HasKey, Placeholder, FindKey;
    var out := Put(lines, spot, line);
    var end := t.end + if spot.Over? then 0 else 1;
    FindKeyIs(lines, t.at + 1, t.end, key, t.indent);
    FindKeyIs(out, t.at + 1, end, key, t.indent);
    assert out[spot.at] == line;
    assert forall j | t.at + 1 <= j < spot.at :: out[j] == lines[j] && !HasKey(lines[j], key, t.indent);
    var r := FindKey(out, t.at + 1, t.end + (if spot.Over? then 0 else 1), key, t.indent);
    assert r.Some?;
  }

  /** Reading after a write gives what was written. */
  lemma PutGet(lines: seq<string>, preset: string, tier: string, key: string, value: string)
    requires PlainKey(key) && Quoted(value) && SaveKey(lines, preset, tier, key, value).Ok?
    ensures LiveLine(SaveKey(lines, preset, tier, key, value).value, preset, tier, key)
            == Some(KeyLine(FindTier(lines, preset, tier).value.indent, key, value))
  {
    hide FindTier, SpotFor, HasKey, Quoted, FindKey, Put, PlainKey, KeyLine;
    SaveLands(lines, preset, tier, key, value);
  }

  /** A second write replaces the first. */
  lemma PutPut(lines: seq<string>, preset: string, tier: string, key: string, first: string, second: string)
    requires PlainKey(key) && Quoted(first) && Quoted(second) && SaveKey(lines, preset, tier, key, first).Ok?
    ensures SaveKey(SaveKey(lines, preset, tier, key, first).value, preset, tier, key, second)
            == SaveKey(lines, preset, tier, key, second)
  {
    hide FindTier, HasKey, Quoted, KeyLine, Placeholder, FindKey, PlainKey;
    SaveLands(lines, preset, tier, key, first);
    var t := FindTier(lines, preset, tier).value;
    var spot := SpotFor(lines, t, key);
    var once := SaveKey(lines, preset, tier, key, first).value;
    var end := t.end + if spot.Over? then 0 else 1;
    assert SpotFor(once, Tier(t.at, end, t.indent), key) == Over(spot.at);
    var line := KeyLine(t.indent, key, second);
    assert once[spot.at := line] == Put(lines, spot, line);
  }

  /** Every other line is as it was, in order. */
  lemma OthersKept(lines: seq<string>, preset: string, tier: string, key: string, value: string)
    requires SaveKey(lines, preset, tier, key, value).Ok?
    ensures var t := FindTier(lines, preset, tier).value;
            var spot, out := SpotFor(lines, t, key), SaveKey(lines, preset, tier, key, value).value;
            && t.at < spot.at <= t.end && out[..spot.at] == lines[..spot.at]
            && out[spot.at + 1..] == lines[if spot.Over? then spot.at + 1 else spot.at..]
            && (spot.Over? ==>
               HasKey(lines[spot.at], key, t.indent) || (key == "slug" && Placeholder(lines[spot.at], t.indent)))
  {
    hide FindTier, HasKey, Placeholder, KeyLine, FindKey;
    var t := FindTier(lines, preset, tier).value;
    FindKeyIs(lines, t.at + 1, t.end, key, t.indent);
  }

  /** Unbinding a credential just bound where none was gives the same lines again. */
  lemma DropUndoesSave(lines: seq<string>, preset: string, tier: string, value: string)
    requires Quoted(value) && FindTier(lines, preset, tier).Ok? && LiveLine(lines, preset, tier, "credential").None?
    ensures SaveKey(lines, preset, tier, "credential", value).Ok?
    ensures DropKey(SaveKey(lines, preset, tier, "credential", value).value, preset, tier, "credential") == Ok(lines)
  {
    hide FindTier, HasKey, Quoted, KeyLine, FindKey;
    SaveLands(lines, preset, tier, "credential", value);
    var t := FindTier(lines, preset, tier).value;
    var out := SaveKey(lines, preset, tier, "credential", value).value;
    assert SpotFor(lines, t, "credential") == Before(t.at + 1);
    assert out[..t.at + 1] + out[t.at + 2..] == lines;
  }

  // ------------------------------------------------------- a second live line

  /** The block as the source's note has it: comments never end it, wherever they stand. */
  function NotedEnd(lines: seq<string>, i: nat, headerIndent: nat): (end: nat)
    requires i <= |lines|
    ensures i <= end <= |lines|
    decreases |lines| - i
  {
    if i == |lines| then i
    else if Content(lines[i]) && Indent(lines[i]) <= headerIndent then i
    else NotedEnd(lines, i + 1, headerIndent)
  }

  lemma {:induction false} NotedEndIs(lines: seq<string>, i: nat, headerIndent: nat)
    requires i <= |lines|
    ensures var end := NotedEnd(lines, i, headerIndent);
            && (forall j | i <= j < end :: !Content(lines[j]) || Indent(lines[j]) > headerIndent)
            && (end < |lines| ==> Content(lines[end]) && Indent(lines[end]) <= headerIndent)
    decreases |lines| - i
  {
    hide Content, Indent;
    if i < |lines| { NotedEndIs(lines, i + 1, headerIndent); }
  }

  /** A comment in the block that stands at or left of the header's indent. */
  predicate Outlying(line: string, headerIndent: nat) {
    Comment(line) && Indent(line) <= headerIndent
  }

  lemma LineKinds(line: string)
    ensures Content(line) <==> !Blank(line) && !Comment(line)
    ensures Comment(line) ==> !Blank(line)
  {
  }

  /**
   The code's block is the noted one exactly when no comment inside stands at or left of the header's
   indent; else it is shorter.
   */
  lemma CommentsEndBlocks(lines: seq<string>, i: nat, headerIndent: nat)
    requires i <= |lines|
    ensures var end, noted := BlockEnd(lines, i, headerIndent), NotedEnd(lines, i, headerIndent);
            && end <= noted
            && (end == noted <==> forall j | i <= j < noted :: !Outlying(lines[j], headerIndent))
            && (end < noted ==> Outlying(lines[end], headerIndent))
  {
    hide Content, Blank, Comment, Indent, BlockEnd, NotedEnd;
    var end, noted := BlockEnd(lines, i, headerIndent), NotedEnd(lines, i, headerIndent);
    BlockEndIs(lines, i, headerIndent);
    NotedEndIs(lines, i, headerIndent);
    forall j | 0 <= j < |lines| ensures (Content(lines[j]) <==> !Blank(lines[j]) && !Comment(lines[j]))
                                        && (Comment(lines[j]) ==> !Blank(lines[j])) {
      LineKinds(lines[j]);
    }
  }

  /** The code finds a key of a block unless an outlying comment stands between the header and its line. */
  lemma FoundUnlessOutlying(lines: seq<string>, lo: nat, headerIndent: nat, key: string, indent: nat)
    requires lo <= |lines| && FindKey(lines, lo, NotedEnd(lines, lo, headerIndent), key, indent).Some?
    ensures var at := FindKey(lines, lo, NotedEnd(lines, lo, headerIndent), key, indent);
            FindKey(lines, lo, BlockEnd(lines, lo, headerIndent), key, indent)
            == if exists c | lo <= c < at.value :: Outlying(lines[c], headerIndent) then None else at
  {
    hide HasKey, BlockEnd, NotedEnd, FindKey, Comment, Content, Blank, Indent;
    var end, noted := BlockEnd(lines, lo, headerIndent), NotedEnd(lines, lo, headerIndent);
    var at := FindKey(lines, lo, noted, key, indent).value;
    CommentsEndBlocks(lines, lo, headerIndent);
    BlockEndIs(lines, lo, headerIndent);
    FindKeyIs(lines, lo, noted, key, indent);
    FindKeyIs(lines, lo, end, key, indent);
    forall c | lo <= c < end ensures !Outlying(lines[c], headerIndent) { LineKinds(lines[c]); }
    LiveNotComment(lines[at], key, indent);
  }

  /** The lines of `presets:`, the preset and the tier. */
  datatype Declared = Declared(presets: nat, preset: nat, tier: nat)

  /** The tier the file declares, comments aside. */
  function DeclaredTier(lines: seq<string>, preset: string, tier: string): (d: Option<Declared>)
    ensures d.Some? ==> d.value.presets < d.value.preset < d.value.tier < |lines|
  {
    match FindKey(lines, 0, |lines|, "presets", 0)
    case None => None
    case Some(presetsAt) =>
      match FindKey(lines, presetsAt + 1, NotedEnd(lines, presetsAt + 1, 0), preset, 2)
      case None => None
      case Some(presetAt) =>
        match FindKey(lines, presetAt + 1, NotedEnd(lines, presetAt + 1, 2), tier, 4)
        case None => None
        case Some(tierAt) => Some(Declared(presetsAt, presetAt, tierAt))
  }

  /**
   A save refuses a tier the file declares exactly when an outlying comment stands between `presets:` and the
   preset, or between the preset and the tier; otherwise it finds that tier.
   */
  lemma TierMissed(lines: seq<string>, preset: string, tier: string, key: string, value: string)
    requires DeclaredTier(lines, preset, tier).Some?
    ensures var d := DeclaredTier(lines, preset, tier).value;
            && (SaveKey(lines, preset, tier, key, value).Err? <==>
                  || (exists c | d.presets < c < d.preset :: Outlying(lines[c], 0))
                  || (exists c | d.preset < c < d.tier :: Outlying(lines[c], 2)))
            && (FindTier(lines, preset, tier).Ok? ==> FindTier(lines, preset, tier).value == TierAt(lines, d.tier))
  {
    hide FindKey, BlockEnd, NotedEnd, Outlying, TierAt, Put, SpotFor, KeyLine;
    var d := DeclaredTier(lines, preset, tier).value;
    FoundUnlessOutlying(lines, d.presets + 1, 0, preset, 2);
    FoundUnlessOutlying(lines, d.preset + 1, 2, tier, 4);
  }

  /** How many lines of `lines[lo:hi]` hold the key live. */
  function Live(lines: seq<string>, lo: nat, hi: nat, key: string, indent: nat): nat
    requires lo <= hi <= |lines|
    decreases hi - lo
  {
    if lo == hi then 0 else (if HasKey(lines[lo], key, indent) then 1 else 0) + Live(lines, lo + 1, hi, key, indent)
  }

  lemma {:induction false} LiveSplit(lines: seq<string>, lo: nat, mid: nat, hi: nat, key: string, indent: nat)
    requires lo <= mid <= hi <= |lines|
    ensures Live(lines, lo, hi, key, indent) == Live(lines, lo, mid, key, indent) + Live(lines, mid, hi, key, indent)
    decreases mid - lo
  {
    hide HasKey;
    if lo < mid { LiveSplit(lines, lo + 1, mid, hi, key, indent); }
  }

  lemma {:induction false} LiveSame(a: seq<string>, b: seq<string>, i: nat, j: nat, n: nat, key: string, indent: nat)
    requires i + n <= |a| && j + n <= |b| && a[i..i + n] == b[j..j + n]
    ensures Live(a, i, i + n, key, indent) == Live(b, j, j + n, key, indent)
    decreases n
  {
    hide HasKey;
    if n > 0 {
      assert a[i] == a[i..i + n][0] && b[j] == b[j..j + n][0];
      assert a[i + 1..i + n] == a[i..i + n][1..] && b[j + 1..j + n] == b[j..j + n][1..];
      LiveSame(a, b, i + 1, j + 1, n - 1, key, indent);
    }
  }

  lemma {:induction false} LiveNone(lines: seq<string>, lo: nat, hi: nat, key: string, indent: nat)
    requires lo <= hi <= |lines|
    ensures Live(lines, lo, hi, key, indent) == 0 <==> forall j | lo <= j < hi :: !HasKey(lines[j], key, indent)
    decreases hi - lo
  {
    hide HasKey;
    if lo < hi { LiveNone(lines, lo + 1, hi, key, indent); }
  }

  lemma {:induction false} NotedSame(a: seq<string>, b: seq<string>, i: nat, j: nat)
    requires i <= |a| && j <= |b| && a[i..] == b[j..]
    ensures NotedEnd(b, j, 4) - j == NotedEnd(a, i, 4) - i
    decreases |a| - i
  {
    hide Content, Indent;
    assert |a[i..]| == |b[j..]|;
    if i < |a| {
      assert a[i] == a[i..][0] && b[j] == b[j..][0];
      assert a[i + 1..] == a[i..][1..] && b[j + 1..] == b[j..][1..];
      NotedSame(a, b, i + 1, j + 1);
    }
  }

  /** One line replaced by an inner one, or one put in: the noted block ends at the same line. */
  lemma {:induction false} NotedPut(lines: seq<string>, lo: nat, spot: Spot, line: string)
    requires lo <= |lines| && Content(line) && Indent(line) > 4
    requires if spot.Over? then lo <= spot.at < NotedEnd(lines, lo, 4) else spot.at == lo
    ensures NotedEnd(Put(lines, spot, line), lo, 4) == NotedEnd(lines, lo, 4) + if spot.Over? then 0 else 1
    decreases |lines| - lo
  {
    hide Content, Indent;
    var out := Put(lines, spot, line);
    if spot.Over? {
      if lo < spot.at {
        NotedPut(lines, lo + 1, spot, line);
      } else {
        NotedSame(lines, out, lo + 1, lo + 1);
      }
    } else {
      assert out[lo] == line;
      NotedSame(lines, out, lo, lo + 1);
    }
  }

  /** A put line adds itself to the live ones, and takes away the one it stands over. */
  lemma LivePut(lines: seq<string>, lo: nat, hi: nat, spot: Spot, line: string, key: string, indent: nat)
    requires lo <= hi <= |lines| && HasKey(line, key, indent)
    requires if spot.Over? then lo <= spot.at < hi else spot.at == lo
    ensures Live(Put(lines, spot, line), lo, hi + (if spot.Over? then 0 else 1), key, indent)
            == Live(lines, lo, hi, key, indent) + if spot.Over? && HasKey(lines[spot.at], key, indent) then 0 else 1
  {
    hide HasKey;
    var out, at := Put(lines, spot, line), spot.at;
    assert out[at] == line;
    if spot.Over? {
      LiveSplit(lines, lo, at, hi, key, indent);
      LiveSplit(out, lo, at, hi, key, indent);
      assert lines[lo..at] == out[lo..at] && lines[at + 1..hi] == out[at + 1..hi];
      LiveSame(lines, out, lo, lo, at - lo, key, indent);
      LiveSame(lines, out, at + 1, at + 1, hi - at - 1, key, indent);
    } else {
      assert lines[lo..hi] == out[lo + 1..hi + 1];
      LiveSame(lines, out, lo, lo + 1, hi - lo, key, indent);
    }
  }

  /**
   A save leaves as many live lines of its key in the noted block as there were, or one more where the code
   found none. So where the block had one, it has two exactly when a comment at or left of the tier's
   indent stands between the tier's header and the live line.
   */
  lemma SecondLiveLine(lines: seq<string>, preset: string, tier: string, key: string, value: string)
    requires PlainKey(key) && Quoted(value) && SaveKey(lines, preset, tier, key, value).Ok?
    ensures var t, out := FindTier(lines, preset, tier).value, SaveKey(lines, preset, tier, key, value).value;
            var noted, noted' := NotedEnd(lines, t.at + 1, 4), NotedEnd(out, t.at + 1, 4);
            var was, left := Live(lines, t.at + 1, noted, key, t.indent), Live(out, t.at + 1, noted', key, t.indent);
            && left == was + (if Live(lines, t.at + 1, t.end, key, t.indent) == 0 then 1 else 0)
            && (was == 1 ==>
                  (left == 2 <==> exists c, j | t.at < c < j < noted ::
                    Outlying(lines[c], 4) && HasKey(lines[j], key, t.indent)))
  {
    hide FindTier, HasKey, Quoted, KeyLine, Placeholder, BlockEnd, NotedEnd, Outlying, PlainKey, SpotFor, Live;
    var t := FindTier(lines, preset, tier).value;
    TierBlock(lines, preset, tier);
    LiveLeft(lines, preset, tier, key, value);
    if Live(lines, t.at + 1, NotedEnd(lines, t.at + 1, 4), key, t.indent) == 1 {
      LiveBehind(lines, t.at + 1, key, t.indent);
    }
  }

  lemma LiveLeft(lines: seq<string>, preset: string, tier: string, key: string, value: string)
    requires PlainKey(key) && Quoted(value) && SaveKey(lines, preset, tier, key, value).Ok?
    ensures var t, out := FindTier(lines, preset, tier).value, SaveKey(lines, preset, tier, key, value).value;
            Live(out, t.at + 1, NotedEnd(out, t.at + 1, 4), key, t.indent)
            == Live(lines, t.at + 1, NotedEnd(lines, t.at + 1, 4), key, t.indent)
               + if Live(lines, t.at + 1, t.end, key, t.indent) == 0 then 1 else 0
  {
    hide FindTier, HasKey, Quoted, KeyLine, Placeholder, BlockEnd, NotedEnd, Content, Indent, FindKey, PlainKey,
         Live, Outlying, Put;
    var t := FindTier(lines, preset, tier).value;
    var spot, line := SpotFor(lines, t, key), KeyLine(t.indent, key, value);
    TierBlock(lines, preset, tier);
    CommentsEndBlocks(lines, t.at + 1, 4);
    KeyLineReads(t.indent, key, value);
    LineInner(line, key, t.indent);
    NotedPut(lines, t.at + 1, spot, line);
    LivePut(lines, t.at + 1, NotedEnd(lines, t.at + 1, 4), spot, line, key, t.indent);
    FindKeyIs(lines, t.at + 1, t.end, key, t.indent);
    LiveNone(lines, t.at + 1, t.end, key, t.indent);
  }

  /** The code finds the one live line of a noted block, unless an outlying comment stands before it. */
  lemma LiveBehind(lines: seq<string>, lo: nat, key: string, indent: nat)
    requires lo <= |lines| && Live(lines, lo, NotedEnd(lines, lo, 4), key, indent) == 1
    ensures Live(lines, lo, BlockEnd(lines, lo, 4), key, indent) == 0 <==>
            exists c, j | lo <= c < j < NotedEnd(lines, lo, 4) :: Outlying(lines[c], 4) && HasKey(lines[j], key, indent)
  {
    hide HasKey, BlockEnd, NotedEnd, Content, Comment, Indent, Blank, Live;
    var end, noted := BlockEnd(lines, lo, 4), NotedEnd(lines, lo, 4);
    CommentsEndBlocks(lines, lo, 4);
    LiveNone(lines, lo, end, key, indent);
    LiveSplit(lines, lo, end, noted, key, indent);
    LiveNone(lines, end, noted, key, indent);
    BlockEndIs(lines, lo, 4);
    forall c | lo <= c < end ensures !Outlying(lines[c], 4) {
      LineKinds(lines[c]);
    }
    if end < noted { LiveNotComment(lines[end], key, indent); }
  }

  lemma TierBlock(lines: seq<string>, preset: string, tier: string)
    requires FindTier(lines, preset, tier).Ok?
    ensures var t := FindTier(lines, preset, tier).value; t.end == BlockEnd(lines, t.at + 1, 4)
  {
    hide BlockEnd, FindKey, FirstContent;
  }

  lemma LineInner(line: string, key: string, indent: nat)
    requires HasKey(line, key, indent)
    ensures Content(line) && Indent(line) == indent
  {
  }

  lemma LiveNotComment(line: string, key: string, indent: nat)
    ensures Comment(line) ==> !HasKey(line, key, indent)
  {
    hide KeyName, Indent;
  }

  /** A comment at the left margin inside a tier, with the tier's slug after it. */
  function Interrupted(value: string): seq<string> {
    ["presets:", "  p:", "    main:", "      base_url: \"u\"", "# a note", KeyLine(6, "slug", value)]
  }

  lemma MarginComment()
    ensures !Blank("# a note") && Indent("# a note") == 0 && !Content("# a note")
  {
    hide Stripped;
    assert Spaces(0) + "# a note" == "# a note";
    SpacesStripped("", "# a note");
  }

  lemma HeaderLines()
    ensures HasKey("presets:", "presets", 0) && HasKey("  p:", "p", 2) && HasKey("    main:", "main", 4)
    ensures HasKey("      base_url: \"u\"", "base_url", 6)
  {
    hide HasKey, KeyLine, Spaces;
    assert Spaces(0) == "" && Spaces(2) == "  " && Spaces(4) == "    " && Spaces(6) == "      ";
    HeaderLine(0, "presets");
    HeaderLine(2, "p");
    HeaderLine(4, "main");
    assert "" + ("presets" + ":") == "presets:" && "  " + ("p" + ":") == "  p:"
           && "    " + ("main" + ":") == "    main:";
    KeyLineReads(6, "base_url", "\"u\"");
    BaseLine();
  }

  lemma BaseLine()
    ensures KeyLine(6, "base_url", "\"u\"") == "      base_url: \"u\""
  {
    hide Spaces;
    assert Spaces(6) == "      ";
    assert "      " + "base_url" + ": " + "\"u\"" == "      base_url: \"u\"";
  }

  lemma HeaderLine(indent: nat, key: string)
    requires PlainKey(key)
    ensures HasKey(Spaces(indent) + (key + ":"), key, indent)
  {
    hide Stripped, BeforeColon, LeftStripped, Spaces;
    var s := key + ":";
    HeaderParts(key);
    SpacesStripped(Spaces(indent), s);
    KeyBefore(key, "");
    SpacesStripped("", key);
    PaddedLength(indent, s);
  }

  lemma HeaderParts(key: string)
    requires PlainKey(key)
    ensures var s := key + ":";
            && s == key + ":" + "" && s[0] == key[0] && !PySpace(s[0]) && !PySpace(s[|s| - 1]) && Spaces(0) + key == key
            && !PySpace(key[|key| - 1])
  {
  }

  lemma InterruptedLines(was: string)
    ensures var lines := Interrupted(was);
            && Plain(lines[0], "presets", 0) && Plain(lines[1], "p", 2) && Plain(lines[2], "main", 4)
            && Plain(lines[3], "base_url", 6)
  {
    hide HasKey, Plain;
    var lines := Interrupted(was);
    HeaderLines();
    PlainLine(lines[0], "presets", 0);
    PlainLine(lines[1], "p", 2);
    PlainLine(lines[2], "main", 4);
    PlainLine(lines[3], "base_url", 6);
  }

  lemma InterruptedBlocks(was: string)
    ensures var lines := Interrupted(was);
            BlockEnd(lines, 1, 0) == 4 && BlockEnd(lines, 2, 2) == 4 && BlockEnd(lines, 3, 4) == 4
  {
    hide HasKey, Blank, Indent, Content, KeyName, BlockEnd;
    var lines := Interrupted(was);
    InterruptedLines(was);
    MarginComment();
    BlockStep(lines, 1, 0);
    BlockStep(lines, 2, 0);
    BlockStep(lines, 3, 0);
    BlockStep(lines, 4, 0);
    BlockStep(lines, 2, 2);
    BlockStep(lines, 3, 2);
    BlockStep(lines, 4, 2);
    BlockStep(lines, 3, 4);
    BlockStep(lines, 4, 4);
  }

  lemma InterruptedTier(was: string)
    ensures FindTier(Interrupted(was), "p", "main") == Ok(Tier(2, 4, 6))
  {
    hide HasKey, Blank, Indent, Content, BlockEnd, KeyName;
    var lines := Interrupted(was);
    InterruptedBlocks(was);
    InterruptedLines(was);
    HeaderLines();
    assert FindKey(lines, 0, 6, "presets", 0) == Some(0);
    assert FindKey(lines, 1, 4, "p", 2) == Some(1);
    assert FindKey(lines, 2, 4, "main", 4) == Some(2);
    assert FirstContent(lines, 3, 4) == Some(3);
  }

  lemma NoneInside(was: string)
    ensures var lines := Interrupted(was);
            FindKey(lines, 3, 4, "slug", 6) == None && FindPlaceholder(lines, 3, 4, 6) == None
  {
    hide KeyLine;
    var lines := Interrupted(was);
    InterruptedLines(was);
    assert !HasKey(lines[3], "slug", 6) && !Placeholder(lines[3], 6) by {
      assert !Comment(lines[3]);
      StrippedStart(lines[3]);
    }
  }

  /**
   The note that comments never end a block does not hold: with a comment at the left margin
   inside the tier the live slug is out of reach, so the writer adds a second one above it.
   */
  lemma CommentEndsBlock(was: string, value: string)
    requires Quoted(was) && Quoted(value)
    ensures var lines := Interrupted(was);
            && HasKey(lines[5], "slug", 6)
            && SaveKey(lines, "p", "main", "slug", value) == Ok(lines[..3] + [KeyLine(6, "slug", value)] + lines[3..])
  {
    hide HasKey, KeyLine, FindTier, FindKey, FindPlaceholder;
    KeyLineReads(6, "slug", was);
    InterruptedTier(was);
    NoneInside(was);
  }

  predicate Plain(line: string, key: string, indent: nat) {
    Content(line) && !Blank(line) && Indent(line) == indent && KeyName(line) == key
  }

  lemma PlainLine(line: string, key: string, indent: nat)
    requires HasKey(line, key, indent)
    ensures Plain(line, key, indent)
  {
  }

  lemma BlockStep(lines: seq<string>, i: nat, headerIndent: nat)
    requires i < |lines|
    ensures BlockEnd(lines, i, headerIndent)
            == if !Blank(lines[i]) && Indent(lines[i]) <= headerIndent then i else BlockEnd(lines, i + 1, headerIndent)
  {
  }

  /** What a line with content starts with, however it is stripped. */
  lemma {:induction false} StrippedStart(line: string)
    ensures Stripped(line) != "" ==> LeftStripped(line) != "" && Stripped(line)[0] == LeftStripped(line)[0]
    decreases |line|
  {
    if line == "" {
    } else {
      if PySpace(line[0]) {
        StrippedStart(line[1..]);
      } else {
        StrippedHead(line);
      }
    }
  }

  lemma {:induction false} StrippedHead(line: string)
    requires line != "" && !PySpace(line[0])
    ensures Stripped(line) != "" && Stripped(line)[0] == line[0]
    decreases |line|
  {
    if PySpace(line[|line| - 1]) {
      StrippedHead(line[..|line| - 1]);
    }
  }
}
