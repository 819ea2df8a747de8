/**
 Card values written into a tier or one of its backups (core/tstd/card_write.py): a value
 replaced on its own line, or a line added, inside one block only.
 */
module CardWrite {
  import opened Text
  import opened ConfigWrite

  // --------------------------------------------------------------- one line

  predicate Dashed(line: string) {
    var s := Stripped(line);
    |s| >= 2 && s[..2] == "- "
  }

  /** The indent of a line's key: a backup's dash line carries its first key after the dash. */
  function OwnIndent(line: string): nat {
    if Dashed(line) then Indent(line) + 2 else Indent(line)
  }

  /** `_key_of`. */
  function KeyOf(line: string): string {
    Stripped(BeforeColon(if Dashed(line) then Stripped(line)[2..] else Stripped(line)))
  }

  predicate Holds(line: string, key: string, indent: nat) {
    Content(line) && OwnIndent(line) == indent && KeyOf(line) == key
  }

  /** One past the white space at `i`. */
  function PastSpace(s: string, i: nat): (j: nat)
    requires i <= |s|
    ensures i <= j <= |s| && (j < |s| ==> !PySpace(s[j])) && forall k | i <= k < j :: PySpace(s[k])
    decreases |s| - i
  {
    if i < |s| && PySpace(s[i]) then PastSpace(s, i + 1) else i
  }

  predicate WordChar(c: char) {
    'A' <= c <= 'Z' || 'a' <= c <= 'z' || c == '_'
  }

  function PastWord(s: string, i: nat): (j: nat)
    requires i <= |s|
    ensures i <= j <= |s| && (j < |s| ==> !WordChar(s[j])) && forall k | i <= k < j :: WordChar(s[k])
    decreases |s| - i
  {
    if i < |s| && WordChar(s[i]) then PastWord(s, i + 1) else i
  }

  /** Where a line's first word may start: past blanks, perhaps a dash and blanks. */
  function PastDash(line: string): (b: nat)
    ensures b <= |line|
  {
    var a := PastSpace(line, 0);
    if a < |line| && line[a] == '-' && PastSpace(line, a + 1) > a + 1 then PastSpace(line, a + 1) else a
  }

  /** One past a line's colon, right after that word. */
  function PastColon(line: string): (c: Option<nat>)
    ensures c.Some? ==> 0 < c.value <= |line| && line[c.value - 1] == ':'
  {
    var b := PastDash(line);
    var w := PastWord(line, b);
    if b < w < |line| && line[w] == ':' then Some(w + 1) else None
  }

  function FirstHash(s: string, i: nat): (h: nat)
    requires i <= |s|
    ensures i <= h <= |s| && (h < |s| ==> s[h] == '#') && forall k | i <= k < h :: s[k] != '#'
    decreases |s| - i
  {
    if i < |s| && s[i] != '#' then FirstHash(s, i + 1) else i
  }

  /** Where the white space before `h` begins, not before `c`. */
  function RunStart(s: string, c: nat, h: nat): (p: nat)
    requires c <= h <= |s|
    ensures c <= p <= h && (p > c ==> !PySpace(s[p - 1])) && forall k | p <= k < h :: PySpace(s[k])
    decreases h
  {
    if h > c && PySpace(s[h - 1]) then RunStart(s, c, h - 1) else h
  }

  datatype Ends = Ends(head: string, tail: string)

  /**
   The value line's pattern: what stays before the value, and the comment after it. An empty
   value before a comment leaves the comment its last blank.
   */
  function SplitValue(line: string): Option<Ends> {
    match PastColon(line)
    case None => None
    case Some(c) =>
      var h, lead := FirstHash(line, c), PastSpace(line, c);
      if h == |line| then Some(Ends(line[..lead], ""))
      else if h == c || !PySpace(line[h - 1]) then None
      else if lead >= h then Some(Ends(line[..h - 1], line[h - 1..]))
      else Some(Ends(line[..lead], line[RunStart(line, c, h)..]))
  }

  /** The text of a number: no comment mark in it and no blank at its ends. */
  predicate Number(text: string) {
    text != "" && Lacks(text, '#') && !PySpace(text[0]) && !PySpace(text[|text| - 1])
  }

  function WithValue(ends: Ends, text: string): string {
    ends.head + text + ends.tail
  }

  lemma {:induction false} PastSpaceSame(a: string, b: string, i: nat, n: nat)
    requires i <= n <= |a| && n <= |b| && a[..n] == b[..n] && PastSpace(a, i) < n
    ensures PastSpace(b, i) == PastSpace(a, i)
  {
    hide *;
    var j := PastSpace(a, i);
    assert forall k | 0 <= k < n :: a[k] == a[..n][k] && b[k] == b[..n][k];
    var j' := PastSpace(b, i);
  }

  /** The colon is found again when everything up to it is the same. */
  lemma PastColonSame(a: string, b: string)
    requires PastColon(a).Some? && PastColon(a).value <= |b| && a[..PastColon(a).value] == b[..PastColon(a).value]
    ensures PastColon(b) == PastColon(a)
  {
    hide PastDash, PastWord;
    var c, d := PastColon(a).value, PastDash(a);
    PastDashSame(a, b, c);
    assert PastWord(b, d) == PastWord(a, d) by {
      assert forall k | 0 <= k < c :: a[k] == a[..c][k] && b[k] == b[..c][k];
      var j, j' := PastWord(a, d), PastWord(b, d);
    }
    assert forall k | 0 <= k < c :: a[k] == a[..c][k] && b[k] == b[..c][k];
  }

  lemma PastDashSame(a: string, b: string, n: nat)
    requires n <= |a| && n <= |b| && a[..n] == b[..n] && PastDash(a) + 1 < n
    ensures PastDash(b) == PastDash(a)
  {
    hide PySpace;
    var s := PastSpace(a, 0);
    assert forall k | 0 <= k < n :: a[k] == a[..n][k] && b[k] == b[..n][k];
    PastSpaceSame(a, b, 0, n);
    if a[s] == '-' {
      PastSpaceSame(a, b, s + 1, n);
    }
  }

  lemma SplitFacts(line: string)
    requires SplitValue(line).Some?
    ensures PastColon(line).Some?
    ensures var e, c := SplitValue(line).value, PastColon(line).value;
            && c <= |e.head| <= |line| && line[..|e.head|] == e.head
            && (forall k | c <= k < |e.head| :: PySpace(line[k]))
            && (e.tail == "" || exists h :: Tailed(e.tail, h))
  {
    hide PastColon, PySpace, Tailed;
    var e, c := SplitValue(line).value, PastColon(line).value;
    var h, lead := FirstHash(line, c), PastSpace(line, c);
    if h < |line| {
      if lead >= h {
        TailFrom(line, h - 1, h);
      } else {
        TailFrom(line, RunStart(line, c, h), h);
      }
    }
  }

  lemma TailFrom(line: string, p: nat, h: nat)
    requires p < h < |line| && line[h] == '#' && forall k | p <= k < h :: PySpace(line[k])
    ensures Tailed(line[p..], h - p)
  {
    hide PySpace;
  }

  /** Blanks and then a comment. */
  predicate Tailed(tail: string, h: int) {
    0 < h < |tail| && tail[h] == '#' && forall k | 0 <= k < h :: PySpace(tail[k])
  }

  lemma {:induction false} PastSpaceIs(s: string, i: nat, n: nat)
    requires i <= n <= |s| && (n < |s| ==> !PySpace(s[n])) && forall k | i <= k < n :: PySpace(s[k])
    ensures PastSpace(s, i) == n
    decreases n - i
  {
    hide PySpace;
    if i < n { PastSpaceIs(s, i + 1, n); }
  }

  lemma {:induction false} FirstHashIs(s: string, i: nat, n: nat)
    requires i <= n <= |s| && (n < |s| ==> s[n] == '#') && forall k | i <= k < n :: s[k] != '#'
    ensures FirstHash(s, i) == n
    decreases n - i
  {
    if i < n { FirstHashIs(s, i + 1, n); }
  }

  lemma {:induction false} RunStartIs(s: string, c: nat, p: nat, h: nat)
    requires c <= p <= h <= |s| && (p > c ==> !PySpace(s[p - 1])) && forall k | p <= k < h :: PySpace(s[k])
    ensures RunStart(s, c, h) == p
    decreases h
  {
    hide PySpace;
    if h > p { RunStartIs(s, c, p, h - 1); }
  }

  /**
   A number written on a value line: what stays around the value is found again, so a second write
   replaces the first.
   */
  lemma WriteKeepsEnds(line: string, text: string)
    requires SplitValue(line).Some? && Number(text)
    ensures SplitValue(WithValue(SplitValue(line).value, text)) == SplitValue(line)
  {
    hide SplitValue, PastColon, PySpace, PastSpace, FirstHash, RunStart, Tailed;
    SplitFacts(line);
    var e, c := SplitValue(line).value, PastColon(line).value;
    var out := WithValue(e, text);
    var n, m := |e.head|, |e.head| + |text|;
    assert line[..c] == e.head[..c] == out[..c];
    PastColonSame(line, out);
    assert forall k | 0 <= k < n :: out[k] == e.head[k] == line[k];
    assert forall k | n <= k < m :: out[k] == text[k - n];
    assert out[n..] == text + e.tail && out[m..] == e.tail && out[..n] == e.head;
    NoHashBlank(line, out, c, n);
    PastSpaceIs(out, c, n);
    if e.tail == "" {
      FirstHashIs(out, c, |out|);
      PlainEnds(out, c, n);
    } else {
      var h :| Tailed(e.tail, h);
      TailParts(out, e.tail, m, h);
      FirstHashIs(out, c, m + h);
      RunStartIs(out, c, m, m + h);
      TailedEnds(out, c, n, m + h, m);
    }
  }

  /** No blank is a comment mark. */
  lemma NoHashBlank(line: string, out: string, c: nat, n: nat)
    requires c <= n <= |line| && n <= |out|
             && (forall k | 0 <= k < n :: out[k] == line[k]) && forall k | c <= k < n :: PySpace(line[k])
    ensures forall k | c <= k < n :: PySpace(out[k]) && out[k] != '#'
  {
  }

  lemma TailParts(out: string, tail: string, m: nat, h: int)
    requires m <= |out| && out[m..] == tail && Tailed(tail, h)
    ensures m < m + h < |out| && out[m + h] == '#' && forall k | m <= k < m + h :: PySpace(out[k]) && out[k] != '#'
  {
    assert forall k | m <= k < |out| :: out[k] == tail[k - m];
  }

  lemma PlainEnds(line: string, c: nat, lead: nat)
    requires PastColon(line) == Some(c) && FirstHash(line, c) == |line| && PastSpace(line, c) == lead
    ensures SplitValue(line) == Some(Ends(line[..lead], ""))
  {
  }

  lemma TailedEnds(line: string, c: nat, lead: nat, h: nat, p: nat)
    requires PastColon(line) == Some(c) && FirstHash(line, c) == h < |line| && PastSpace(line, c) == lead < h
    requires PySpace(line[h - 1]) && RunStart(line, c, h) == p && h > c
    ensures SplitValue(line) == Some(Ends(line[..lead], line[p..]))
  {
  }

  /**
   The value written stands clear of the colon exactly when the line had a blank after it to
   spare: an empty value with no blank, or with only the one before its comment, is written
   against the colon, where it no longer reads as a value.
   */
  lemma TouchesColon(line: string, text: string)
    requires SplitValue(line).Some? && Number(text)
    ensures var c, out := PastColon(line).value, WithValue(SplitValue(line).value, text);
            && c < |out|
            && (!PySpace(out[c]) <==> c == |line| || !PySpace(line[c]) || (c + 1 < |line| && line[c + 1] == '#'))
  {
    hide PastColon, Tailed;
    SplitFacts(line);
    var e, c := SplitValue(line).value, PastColon(line).value;
    var out := WithValue(e, text);
    assert forall k | 0 <= k < |e.head| :: out[k] == e.head[k] && line[k] == e.head[k];
    assert out[|e.head|] == text[0];
    var h, lead := FirstHash(line, c), PastSpace(line, c);
  }

  // -------------------------------------------------------------- one block

  datatype Refused = Missing(what: Missing) | NoFallbacks | NoEntry | Unreadable

  /** `_set_key`'s line: the first of `lines[lo:hi]` that holds the key. */
  function FindHeld(lines: seq<string>, lo: nat, hi: nat, key: string, indent: nat): (at: Option<nat>)
    requires hi <= |lines|
    ensures at.Some? ==> lo <= at.value < hi && Holds(lines[at.value], key, indent)
    decreases hi - lo
  {
    if lo >= hi then None else if Holds(lines[lo], key, indent) then Some(lo)
    else FindHeld(lines, lo + 1, hi, key, indent)
  }

  /** `_set_key`: the value replaced on its line, or a line added under the first. */
  function SetKey(lines: seq<string>, lo: nat, hi: nat, indent: nat, key: string, text: string): Result<seq<string>,
          Refused>
    requires lo < hi <= |lines|
  {
    match FindHeld(lines, lo, hi, key, indent)
    case Some(at) =>
      (match SplitValue(lines[at])
       case None => Err(Unreadable)
       case Some(ends) => Ok(lines[at := WithValue(ends, text)]))
    case None => Ok(lines[..lo + 1] + [KeyLine(indent, key, text)] + lines[lo + 1..])
  }

  /** `_block_end` of a backup's entry: comments and blank lines do not end it. */
  function EntryEnd(lines: seq<string>, i: nat, dashIndent: nat): (end: nat)
    requires i <= |lines|
    ensures i <= end <= |lines|
    decreases |lines| - i
  {
    if i == |lines| then i
    else if Content(lines[i]) && Indent(lines[i]) <= dashIndent then i
    else EntryEnd(lines, i + 1, dashIndent)
  }

  lemma {:induction false} EntryEndIs(lines: seq<string>, i: nat, dashIndent: nat)
    requires i <= |lines|
    ensures var end := EntryEnd(lines, i, dashIndent);
            && (forall j | i <= j < end :: !Content(lines[j]) || Indent(lines[j]) > dashIndent)
            && (end < |lines| ==> Content(lines[end]) && Indent(lines[end]) <= dashIndent)
    decreases |lines| - i
  {
    hide Content, Indent;
    if i < |lines| { EntryEndIs(lines, i + 1, dashIndent); }
  }

  /** A dash after the line's blanks. */
  predicate DashLine(line: string) {
    var s := LeftStripped(line);
    |s| >= 2 && s[..2] == "- "
  }

  function FirstDash(lines: seq<string>, lo: nat, hi: nat): (at: Option<nat>)
    requires hi <= |lines|
    ensures at.Some? ==> lo <= at.value < hi && DashLine(lines[at.value])
    decreases hi - lo
  {
    if lo >= hi then None else if DashLine(lines[lo]) then Some(lo) else FirstDash(lines, lo + 1, hi)
  }

  /** The dash lines of `lines[lo:hi]` at that indent. */
  function Dashes(lines: seq<string>, lo: nat, hi: nat, indent: nat): (at: seq<nat>)
    requires hi <= |lines|
    ensures forall k | 0 <= k < |at| :: lo <= at[k] < hi && DashLine(lines[at[k]]) && Indent(lines[at[k]]) == indent
    ensures forall j, k | 0 <= j < k < |at| :: at[j] < at[k]
    decreases hi - lo
  {
    if lo >= hi then []
    else (if DashLine(lines[lo]) && Indent(lines[lo]) == indent then [lo] else []) + Dashes(lines, lo + 1, hi, indent)
  }

  /** A block's first line, one past its last, and its keys' indent. */
  datatype Block = Block(at: nat, end: nat, indent: nat)

  /** The dash lines of a tier's backups. */
  function Entries(lines: seq<string>, t: Tier): (at: Option<seq<nat>>)
    requires t.at < t.end <= |lines|
    ensures at.Some? ==> forall k | 0 <= k < |at.value| :: t.at < at.value[k] < |lines| && DashLine(lines[at.value[k]])
  {
    match FindKey(lines, t.at + 1, t.end, "fallbacks", t.indent)
    case None => None
    case Some(listAt) =>
      var listEnd := BlockEnd(lines, listAt + 1, t.indent);
      match FirstDash(lines, listAt + 1, listEnd)
      case None => Some([])
      case Some(first) => Some(Dashes(lines, listAt + 1, listEnd, Indent(lines[first])))
  }

  /** `_fallback_block`. */
  function EntryBlock(lines: seq<string>, t: Tier, index: nat): Result<Block, Refused>
    requires t.at < t.end <= |lines|
  {
    match Entries(lines, t)
    case None => Err(NoFallbacks)
    case Some(at) =>
      if index >= |at| then Err(NoEntry)
      else Ok(Block(at[index], EntryEnd(lines, at[index] + 1, Indent(lines[at[index]])), Indent(lines[at[index]]) + 2))
  }

  datatype Entry = Entry(key: string, text: string)

  /** One past the block again, after a line may have been added. */
  function EndAgain(lines: seq<string>, at: nat, indent: nat, isEntry: bool): (end: nat)
    requires at < |lines|
    ensures at < end <= |lines|
  {
    if isEntry then EntryEnd(lines, at + 1, if indent >= 2 then indent - 2 else 0)
    else BlockEnd(lines, at + 1, Indent(lines[at]))
  }

  /** The values set one by one. */
  function SetAll(lines: seq<string>, b: Block, isEntry: bool, values: seq<Entry>): Result<seq<string>, Refused>
    requires b.at < b.end <= |lines|
    decreases |values|
  {
    if values == [] then Ok(lines)
    else
      match SetKey(lines, b.at, b.end, b.indent, values[0].key, values[0].text)
      case Err(e) => Err(e)
      case Ok(out) =>
        SetLength(lines, b.at, b.end, b.indent, values[0].key, values[0].text);
        SetAll(out, Block(b.at, EndAgain(out, b.at, b.indent, isEntry), b.indent), isEntry, values[1..])
  }

  lemma SetLength(lines: seq<string>, lo: nat, hi: nat, indent: nat, key: string, text: string)
    requires lo < hi <= |lines|
    ensures var r := SetKey(lines, lo, hi, indent, key, text);
            r.Ok? ==> |lines| <= |r.value| <= |lines| + 1
  {
  }

  /** `save_tier_values`; `fallback` is a backup's number. */
  function SaveValues(lines: seq<string>, preset: string, tier: string, fallback: Option<nat>,
          values: seq<Entry>): Result<seq<string>, Refused>
  {
    match FindTier(lines, preset, tier)
    case Err(e) => Err(Missing(e))
    case Ok(t) =>
      match fallback
      case None => SetAll(lines, Block(t.at, t.end, t.indent), false, values)
      case Some(k) =>
        match EntryBlock(lines, t, k)
        case Err(e) => Err(e)
        case Ok(b) => SetAll(lines, b, true, values)
  }

  class Card {
    var lines: seq<string>

    constructor (lines: seq<string>)
      ensures this.lines == lines
    {
      this.lines := lines;
    }

    method Set(lo: nat, hi: nat, indent: nat, key: string, text: string) returns (refused: Option<Refused>)
      requires lo < hi <= |lines|
      modifies this
      ensures match SetKey(old(lines), lo, hi, indent, key, text)
              case Err(e) => refused == Some(e) && lines == old(lines)
              case Ok(out) => refused == None && lines == out
    {
      hide Holds, SplitValue, KeyLine;
      for i := lo to hi
        invariant lines == old(lines) && FindHeld(lines, i, hi, key, indent) == FindHeld(lines, lo, hi, key, indent)
      {
        if !Holds(lines[i], key, indent) {
          continue;
        }
        var found := SplitValue(lines[i]);
        if found.None? {
          return Some(Unreadable);
        }
        lines := lines[i := WithValue(found.value, text)];
        return None;
      }
      lines := lines[..lo + 1] + [KeyLine(indent, key, text)] + lines[lo + 1..];
      refused := None;
    }

    /** The loop over the values, with the block's end found again after each. */
    method SaveAll(b: Block, isEntry: bool, values: seq<Entry>) returns (refused: Option<Refused>)
      requires b.at < b.end <= |lines|
      modifies this
      ensures match SetAll(old(lines), b, isEntry, values)
              case Err(e) => refused == Some(e)
              case Ok(out) => refused == None && lines == out
    {
      hide SetKey, EndAgain;
      var hi := b.end;
      assert values[0..] == values;
      for i := 0 to |values|
        invariant b.at < hi <= |lines|
        invariant SetAll(lines, Block(b.at, hi, b.indent), isEntry, values[i..])
                  == SetAll(old(lines), b, isEntry, values)
      {
        assert values[i..][0] == values[i] && values[i..][1..] == values[i + 1..];
        SetLength(lines, b.at, hi, b.indent, values[i].key, values[i].text);
        refused := Set(b.at, hi, b.indent, values[i].key, values[i].text);
        if refused.Some? {
          return;
        }
        hi := EndAgain(lines, b.at, b.indent, isEntry);
      }
      assert values[|values|..] == [];
      refused := None;
    }
  }

  // ------------------------------------------------------ blocks keep apart

  /** No line of the segment holds a key at that indent. */
  predicate Apart(lines: seq<string>, from: nat, to: nat, indent: nat)
    requires from <= to <= |lines|
  {
    forall i | from <= i < to :: !Content(lines[i]) || OwnIndent(lines[i]) != indent
  }

  /** One value set in a block leaves a segment apart from it as it was, one line further on at most. */
  lemma SetKeepsSegment(lines: seq<string>, lo: nat, hi: nat, indent: nat, key: string, text: string, from: nat,
          to: nat)
    requires lo < hi <= |lines| && lo < from <= to <= |lines| && Apart(lines, from, to, indent)
    requires SetKey(lines, lo, hi, indent, key, text).Ok?
    ensures var out := SetKey(lines, lo, hi, indent, key, text).value;
            var k := |out| - |lines|;
            && 0 <= k <= 1 && out[from + k..to + k] == lines[from..to] && Apart(out, from + k, to + k, indent)
  {
    hide Content, OwnIndent, SplitValue, KeyLine;
    var out := SetKey(lines, lo, hi, indent, key, text).value;
    var k := |out| - |lines|;
    forall i | from <= i < to ensures out[i + k] == lines[i] {
    }
    assert forall i | from + k <= i < to + k :: out[i] == lines[i - k];
  }

  /** However many values the tier is given, a segment apart from its keys only moves. */
  lemma {:induction false} AllKeepSegment(lines: seq<string>, b: Block, isEntry: bool, values: seq<Entry>, from: nat,
          to: nat)
    requires b.at < b.end <= |lines| && b.at < from <= to <= |lines| && Apart(lines, from, to, b.indent)
    requires SetAll(lines, b, isEntry, values).Ok?
    ensures var out := SetAll(lines, b, isEntry, values).value;
            var k := |out| - |lines|;
            k >= 0 && to + k <= |out| && out[from + k..to + k] == lines[from..to]
    decreases |values|
  {
    hide SetKey, Apart, EndAgain;
    if values == [] {
    } else {
      SetLength(lines, b.at, b.end, b.indent, values[0].key, values[0].text);
      SetKeepsSegment(lines, b.at, b.end, b.indent, values[0].key, values[0].text, from, to);
      var out := SetKey(lines, b.at, b.end, b.indent, values[0].key, values[0].text).value;
      var k := |out| - |lines|;
      AllKeepSegment(out, Block(b.at, EndAgain(out, b.at, b.indent, isEntry), b.indent), isEntry, values[1..],
                     from + k, to + k);
    }
  }

  /** An entry's lines: its dash line, then comments, blank lines and deeper ones. */
  lemma EntryApart(lines: seq<string>, t: Tier, index: nat)
    requires t.at < t.end <= |lines| && EntryBlock(lines, t, index).Ok?
    ensures var b := EntryBlock(lines, t, index).value;
            t.at < b.at < b.end <= |lines| && b.indent > t.indent + 2 && Apart(lines, b.at, b.end, t.indent)
  {
    hide Content, Entries, Dashed, DashLine, Indent, EntryEnd;
    var b := EntryBlock(lines, t, index).value;
    var dash := lines[b.at];
    EntryEndIs(lines, b.at + 1, Indent(dash));
    DashDeeper(lines, t, index);
    assert forall i | b.at < i < b.end && Content(lines[i]) :: OwnIndent(lines[i]) > t.indent;
  }

  /** A backup's dash stands deeper than the tier's own keys. */
  lemma DashDeeper(lines: seq<string>, t: Tier, index: nat)
    requires t.at < t.end <= |lines| && EntryBlock(lines, t, index).Ok?
    ensures Indent(lines[EntryBlock(lines, t, index).value.at]) > t.indent
  {
    hide Content, FindKey, Indent, Dashes, FirstDash, DashLine, Blank, EntryEnd, BlockEnd;
    var listAt := FindKey(lines, t.at + 1, t.end, "fallbacks", t.indent).value;
    BlockEndIs(lines, listAt + 1, t.indent);
    var at := EntryBlock(lines, t, index).value.at;
    assert listAt + 1 <= at < BlockEnd(lines, listAt + 1, t.indent);
    DashNotBlank(lines[at]);
  }

  lemma DashNotBlank(line: string)
    requires DashLine(line)
    ensures !Blank(line)
  {
    HeadStays(line);
  }

  lemma {:induction false} HeadStays(line: string)
    requires LeftStripped(line) != ""
    ensures Stripped(line) != ""
    decreases |line|
  {
    if PySpace(line[0]) {
      HeadStays(line[1..]);
    } else {
      StrippedHead(line);
    }
  }

  /** Setting values on the tier never changes a backup: each one's lines are as they were. */
  lemma TierEditKeepsBackups(lines: seq<string>, preset: string, tier: string, values: seq<Entry>, index: nat)
    requires SaveValues(lines, preset, tier, None, values).Ok?
    requires EntryBlock(lines, FindTier(lines, preset, tier).value, index).Ok?
    ensures var b := EntryBlock(lines, FindTier(lines, preset, tier).value, index).value;
            var out := SaveValues(lines, preset, tier, None, values).value;
            var k := |out| - |lines|;
            k >= 0 && b.at < b.end && b.end + k <= |out| && out[b.at + k..b.end + k] == lines[b.at..b.end]
  {
    hide EntryBlock, SetAll, FindTier;
    var t := FindTier(lines, preset, tier).value;
    EntryApart(lines, t, index);
    var b := EntryBlock(lines, t, index).value;
    AllKeepSegment(lines, Block(t.at, t.end, t.indent), false, values, b.at, b.end);
  }

  /** A value set in an entry leaves everything before and after the entry alone. */
  lemma SetStaysInside(lines: seq<string>, lo: nat, hi: nat, indent: nat, key: string, text: string)
    requires lo < hi <= |lines| && SetKey(lines, lo, hi, indent, key, text).Ok?
    ensures var out := SetKey(lines, lo, hi, indent, key, text).value;
            var k := |out| - |lines|;
            0 <= k <= 1 && out[..lo] == lines[..lo] && out[hi + k..] == lines[hi..]
  {
    hide Holds, SplitValue, KeyLine;
  }

  /** After a value was set the entry ends at the same line. */
  lemma {:induction false} EndNotPast(lines: seq<string>, i: nat, dashIndent: nat, end: nat)
    requires i <= end <= |lines| && (end < |lines| ==> Content(lines[end]) && Indent(lines[end]) <= dashIndent)
    ensures EntryEnd(lines, i, dashIndent) <= end
    decreases end - i
  {
    hide Content, Indent;
    if i < end {
      EndNotPast(lines, i + 1, dashIndent, end);
    }
  }

  lemma {:induction false} AllStayInside(lines: seq<string>, b: Block, values: seq<Entry>, end: nat)
    requires b.at < b.end <= end <= |lines| && b.indent >= 2
    requires end < |lines| ==> Content(lines[end]) && Indent(lines[end]) <= b.indent - 2
    requires SetAll(lines, b, true, values).Ok?
    ensures var out := SetAll(lines, b, true, values).value;
            var k := |out| - |lines|;
            k >= 0 && out[..b.at] == lines[..b.at] && end + k <= |out| && out[end + k..] == lines[end..]
    decreases |values|
  {
    hide SetKey, Content, Indent, EntryEnd;
    if values == [] {
    } else {
      var v := values[0];
      SetLength(lines, b.at, b.end, b.indent, v.key, v.text);
      SetStaysInside(lines, b.at, b.end, b.indent, v.key, v.text);
      var out := SetKey(lines, b.at, b.end, b.indent, v.key, v.text).value;
      var k := |out| - |lines|;
      assert out[end + k..] == out[b.end + k..][end - b.end..] && lines[end..] == lines[b.end..][end - b.end..];
      assert end < |lines| ==> out[end + k] == out[end + k..][0] && lines[end] == lines[end..][0];
      EndNotPast(out, b.at + 1, b.indent - 2, end + k);
      AllStayInside(out, Block(b.at, EndAgain(out, b.at, b.indent, true), b.indent), values[1..], end + k);
    }
  }

  /**
   Setting values on one backup never changes the tier or another backup: everything before its
   dash line and from its end on is as it was, and inside it stand only its own keys.
   */
  lemma BackupEditKeepsRest(lines: seq<string>, preset: string, tier: string, values: seq<Entry>, index: nat)
    requires SaveValues(lines, preset, tier, Some(index), values).Ok?
    ensures var t := FindTier(lines, preset, tier).value;
            && EntryBlock(lines, t, index).Ok?
            && var b := EntryBlock(lines, t, index).value;
               var out := SaveValues(lines, preset, tier, Some(index), values).value;
               var k := |out| - |lines|;
               && k >= 0 && out[..b.at] == lines[..b.at] && b.end + k <= |out| && out[b.end + k..] == lines[b.end..]
               && Apart(lines, b.at, b.end, t.indent)
               && forall j | 0 <= j < |Entries(lines, t).value| && j != index ::
                    var other := Entries(lines, t).value[j]; other < b.at || other >= b.end
  {
    hide SetAll, FindTier, Content, Entries, Indent, EntryEnd, Apart, DashLine;
    var t := FindTier(lines, preset, tier).value;
    var b := EntryBlock(lines, t, index).value;
    EntryApart(lines, t, index);
    EntryEndIs(lines, b.at + 1, Indent(lines[b.at]));
    AllStayInside(lines, b, values, b.end);
    OthersOutside(lines, t, index);
  }

  lemma OthersOutside(lines: seq<string>, t: Tier, index: nat)
    requires t.at < t.end <= |lines| && EntryBlock(lines, t, index).Ok?
    ensures var b := EntryBlock(lines, t, index).value;
            forall j | 0 <= j < |Entries(lines, t).value| && j != index ::
              var other := Entries(lines, t).value[j]; other < b.at || other >= b.end
  {
    hide Entries, Content, Indent, DashLine, EntryEnd;
    EntriesInOrder(lines, t);
    var b, at := EntryBlock(lines, t, index).value, Entries(lines, t).value;
    EntryEndIs(lines, b.at + 1, Indent(lines[b.at]));
    forall j | 0 <= j < |at| && j != index ensures at[j] < b.at || at[j] >= b.end {
      DashIsContent(lines[at[j]]);
    }
  }

  /** A tier's backups: one below the other, their dashes in one column. */
  lemma EntriesInOrder(lines: seq<string>, t: Tier)
    requires t.at < t.end <= |lines| && Entries(lines, t).Some?
    ensures var at := Entries(lines, t).value;
            && (forall j, k | 0 <= j < k < |at| :: at[j] < at[k])
            && forall j, k | 0 <= j < |at| && 0 <= k < |at| :: Indent(lines[at[j]]) == Indent(lines[at[k]])
  {
    hide FindKey, BlockEnd, FirstDash, Dashes, DashLine, Indent;
  }

  lemma DashIsContent(line: string)
    requires DashLine(line)
    ensures Content(line)
  {
    DashNotBlank(line);
    StrippedStart(line);
    hide Stripped, LeftStripped;
    assert LeftStripped(line)[0] == LeftStripped(line)[..2][0];
  }
}
