/**
 The text of a compaction summary (core/tstd/compaction_text.py): a first line with the
 user turns it stands for, the guidance, the summary itself, then what it carries.
 */
module CompactionText {
  import opened Text
  import opened Decimal
  import opened Conversation

  const MAX_CHARS := 2000
  const CHARS_PER_MESSAGE := 200
  const CHARS_ON_TOPIC := 600
  const HEADER := "[Earlier conversation compacted]"
  const CARRY_HEADER := "[Kept across compaction]"
  const CARRY_MARK := "\n\n" + CARRY_HEADER + "\n"
  const FILES_HEADER := "[Recent files, read again after compaction]"
  const FILES_MARK := "\n\n" + FILES_HEADER + "\n"
  const GUIDED := "Kept in view, as asked: "
  /** The one character an overlong text is cut with. */
  const ELLIPSIS: char := '\U{2026}'

  // ------------------------------------------------------------- the header

  function HeaderLine(turns: nat): string {
    HEADER + " (" + NatText(turns) + (if turns == 1 then " user turn)" else " user turns)")
  }

  function SummaryHeader(turns: nat, guidance: string): seq<string> {
    [HeaderLine(turns)] + if guidance == "" then [] else [GUIDED + guidance]
  }

  predicate StartsWith(s: string, head: string) {
    |head| <= |s| && s[..|head|] == head
  }

  /** `_SUMMARY_TURNS.match(text)`: the count in a summary's first line, if it is there. */
  function ReadCount(text: string): Option<nat> {
    if !StartsWith(text, HEADER + " (") then None
    else
      var rest := text[|HEADER| + 2..];
      var digits := LeadingDigits(rest);
      var after := rest[|digits|..];
      if digits == "" || !(StartsWith(after, " user turn)") || StartsWith(after, " user turns)")) then None
      else Some(NatValue(digits))
  }

  predicate IsSummary(m: Message) {
    m.role.System? && StartsWith(ContentText(m.content), HEADER)
  }

  /** Whatever follows it, the header line reads back as the count it was written with. */
  lemma HeaderReads(turns: nat, rest: string)
    ensures ReadCount(HeaderLine(turns) + rest) == Some(turns)
    ensures StartsWith(HeaderLine(turns) + rest, HEADER)
  {
    hide NatText, NatValue, LeadingDigits, HeaderLine;
    var d := NatText(turns);
    var close := if turns == 1 then " user turn)" else " user turns)";
    HeaderSplit(turns, rest);
    LeadingDigitsAt(d, close + rest);
    assert (d + (close + rest))[|d|..] == close + rest;
    CloseStarts(turns, rest);
    NatRoundTrip(turns);
  }

  /** What follows the count says what was counted. */
  lemma CloseStarts(turns: nat, rest: string)
    ensures var close := if turns == 1 then " user turn)" else " user turns)";
            StartsWith(close + rest, " user turn)") || StartsWith(close + rest, " user turns)")
  {
    var close := if turns == 1 then " user turn)" else " user turns)";
    assert (close + rest)[..|close|] == close;
  }

  lemma HeaderSplit(turns: nat, rest: string)
    ensures var text, open := HeaderLine(turns) + rest, HEADER + " (";
            && StartsWith(text, HEADER) && StartsWith(text, open)
            && text[|open|..] == NatText(turns) + ((if turns == 1 then " user turn)" else " user turns)") + rest)
  {
    hide NatText;
    var open := HEADER + " (";
    var d := NatText(turns);
    var close := if turns == 1 then " user turn)" else " user turns)";
    var text := HeaderLine(turns) + rest;
    assert text == open + (d + (close + rest));
    assert text[..|open|] == open && text[|open|..] == d + (close + rest);
    assert text[..|HEADER|] == HEADER;
  }

  // ------------------------------------------------- what a summary carries

  /** The summary message's text: the core, then what is carried and the files, if any. */
  function Compose(core: string, carry: string, files: string): string {
    core
    + (if Stripped(carry) == "" then "" else CARRY_MARK + Stripped(carry))
    + (if Stripped(files) == "" then "" else FILES_MARK + Stripped(files))
  }

  /** `summary_core`: the summary up to the first of the two marks. */
  function SummaryCore(text: string): string {
    match (FindText(text, CARRY_MARK, 0), FindText(text, FILES_MARK, 0))
    case (None, None) => text
    case (Some(i), None) => text[..i]
    case (None, Some(j)) => text[..j]
    case (Some(i), Some(j)) => text[..if i <= j then i else j]
  }

  ghost predicate Marked(text: string) {
    exists i: nat :: Occurs(text, CARRY_MARK, i) || Occurs(text, FILES_MARK, i)
  }

  /** A mark begins with two line breaks and has no other place where two meet. */
  predicate MarkShape(mark: string) {
    && |mark| >= 4 && mark[0] == '\n' && mark[1] == '\n' && mark[|mark| - 1] == '\n'
    && forall i | 2 <= i < |mark| - 1 :: mark[i] != '\n'
  }

  lemma OneBreakShape(title: string)
    requires Lacks(title, '\n') && title != ""
    ensures MarkShape("\n\n" + title + "\n")
  {
    var mark := "\n\n" + title + "\n";
    assert forall i | 2 <= i < |mark| - 1 :: mark[i] == title[i - 2];
  }

  /** A mark that starts inside `core` and runs on into an appended mark ends with its first character. */
  lemma MarkInside(core: string, mark: string, appended: string, rest: string, i: nat)
    requires MarkShape(mark) && MarkShape(appended) && i < |core|
    ensures Occurs(core + (appended + rest), mark, i) <==> Occurs(core + "\n", mark, i)
  {
    var text := core + (appended + rest);
    var end := i + |mark|;
    assert text[|core|] == '\n' && text[|core| + 1] == '\n';
    assert Occurs(text, mark, i) ==> forall p | i <= p < end :: text[p] == mark[p - i];
    assert Occurs(text, mark, i) ==> end <= |core| + 1;
    assert end <= |core| + 1 ==> text[i..end] == (core + "\n")[i..end];
  }

  /** The core of a text that goes on with a mark: up to the first mark of all. */
  lemma CoreOfMarked(core: string, appended: string, rest: string)
    requires appended == CARRY_MARK || appended == FILES_MARK
    ensures SummaryCore(core + (appended + rest)) == core <==> !Marked(core + "\n")
  {
    hide MarkShape;
    assert MarkShape(CARRY_MARK) && MarkShape(FILES_MARK) by {
      assert Lacks(CARRY_HEADER, '\n');
      assert Lacks(FILES_HEADER, '\n');
      OneBreakShape(CARRY_HEADER);
      OneBreakShape(FILES_HEADER);
    }
    hide MarkShape, SummaryCore;
    var text := core + (appended + rest);
    assert Occurs(text, appended, |core|) by { assert text[|core|..|core| + |appended|] == appended; }
    if Marked(core + "\n") {
      var i: nat :| Occurs(core + "\n", CARRY_MARK, i) || Occurs(core + "\n", FILES_MARK, i);
      assert i < |core|;
      MarkInside(core, CARRY_MARK, appended, rest, i);
      MarkInside(core, FILES_MARK, appended, rest, i);
      CutEarly(text, i);
    } else {
      forall i | 0 <= i < |core| ensures !Occurs(text, CARRY_MARK, i) && !Occurs(text, FILES_MARK, i) {
        MarkInside(core, CARRY_MARK, appended, rest, i);
        MarkInside(core, FILES_MARK, appended, rest, i);
      }
      assert SummaryCore(text) == core;
    }
  }

  lemma CutEarly(text: string, i: nat)
    requires Occurs(text, CARRY_MARK, i) || Occurs(text, FILES_MARK, i)
    ensures |SummaryCore(text)| <= i
  {
  }

  /**
   A later fold reads exactly the core back, unless the core itself holds a mark, or ends in
   a bare mark line that the appended text completes.
   */
  lemma CoreReadsBack(core: string, carry: string, files: string)
    ensures SummaryCore(Compose(core, carry, files)) == core <==>
            !Marked(if Stripped(carry) == "" && Stripped(files) == "" then core else core + "\n")
  {
    hide Stripped, SummaryCore;
    var c, f := Stripped(carry), Stripped(files);
    var filed := if f == "" then "" else FILES_MARK + f;
    if c != "" {
      assert Compose(core, carry, files) == core + (CARRY_MARK + (c + filed));
      CoreOfMarked(core, CARRY_MARK, c + filed);
    } else if f != "" {
      assert Compose(core, carry, files) == core + (FILES_MARK + f);
      CoreOfMarked(core, FILES_MARK, f);
    } else {
      assert Compose(core, carry, files) == core;
      if Marked(core) {
        var i: nat :| Occurs(core, CARRY_MARK, i) || Occurs(core, FILES_MARK, i);
        CutEarly(core, i);
      } else {
        Unmarked(core);
      }
    }
  }

  lemma Unmarked(text: string)
    requires !Marked(text)
    ensures SummaryCore(text) == text
  {
    hide FindText;
    assert FindText(text, CARRY_MARK, 0).None? && FindText(text, FILES_MARK, 0).None?;
  }

  // ----------------------------------------------------- extractive summaries

  function Truncate(text: string, limit: nat): (s: string)
    ensures |s| <= limit + 1
  {
    if |text| <= limit then text else text[..limit] + [ELLIPSIS]
  }

  /** A line of the summary, and whether it mentions the guidance. */
  datatype Line = Line(text: string, hit: bool)

  /** Which texts mention the guidance; None for a guidance without words. */
  type Topic = Option<string -> bool>

  predicate OnTopic(topic: Topic, text: string) {
    topic.Some? && topic.value(text)
  }

  function CallNames(calls: seq<Call>): seq<string> {
    if calls == [] then []
    else (if calls[0].fn.Some? then [calls[0].fn.value.name] else []) + CallNames(calls[1..])
  }

  function LineOf(m: Message, topic: Topic): Line {
    var text := ContentText(m.content);
    var hit := OnTopic(topic, text);
    var limit := if hit then CHARS_ON_TOPIC else CHARS_PER_MESSAGE;
    match m.role
    case User => Line((if m.check then "Done-check: " else "User: ") + Truncate(text, limit), hit)
    case Assistant =>
      if m.calls != [] then Line("Assistant called tools: " + Join(CallNames(m.calls), ", "), hit)
      else Line("Assistant: " + Truncate(text, limit), hit)
    case Tool => Line("Tool result: " + Truncate(text, limit), hit)
    case System => Line(SummaryCore(text), true)
  }

  function LinesOf(dropped: seq<Message>, topic: Topic): (lines: seq<Line>)
    ensures |lines| == |dropped| && forall i | 0 <= i < |lines| :: lines[i] == LineOf(dropped[i], topic)
  {
    seq(|dropped|, i requires 0 <= i < |dropped| => LineOf(dropped[i], topic))
  }

  function TextOf(lines: seq<Line>): (texts: seq<string>)
    ensures |texts| == |lines| && forall i | 0 <= i < |lines| :: texts[i] == lines[i].text
  {
    seq(|lines|, i requires 0 <= i < |lines| => lines[i].text)
  }

  function Rendered(header: seq<string>, lines: seq<Line>): string {
    Join(header + TextOf(lines), "\n")
  }

  predicate OverCap(header: seq<string>, lines: seq<Line>) {
    |Rendered(header, lines)| > MAX_CHARS
  }

  /** `lines` without its `k` oldest lines that are off topic. */
  function WithoutOldest(lines: seq<Line>, k: nat): (left: seq<Line>) {
    if lines == [] || k == 0 then lines
    else if lines[0].hit then [lines[0]] + WithoutOldest(lines[1..], k)
    else WithoutOldest(lines[1..], k - 1)
  }

  function OffTopic(lines: seq<Line>): nat {
    if lines == [] then 0 else (if lines[0].hit then 0 else 1) + OffTopic(lines[1..])
  }

  /** The summary with as few old off-topic lines gone as its cap allows. */
  ghost predicate Fitted(header: seq<string>, lines: seq<Line>, left: seq<Line>) {
    exists k: nat ::
      && k <= OffTopic(lines) && left == WithoutOldest(lines, k)
      && (forall j: nat | j < k :: OverCap(header, WithoutOldest(lines, j)))
      && (OverCap(header, left) ==> k == OffTopic(lines))
  }

  /** One more old line gone is the first off-topic one of what is left. */
  lemma {:induction false} NextOldest(lines: seq<Line>, k: nat, i: nat)
    requires k < OffTopic(lines)
    requires var left := WithoutOldest(lines, k);
             i < |left| && !left[i].hit && forall j | 0 <= j < i :: left[j].hit
    ensures var left := WithoutOldest(lines, k); WithoutOldest(lines, k + 1) == left[..i] + left[i + 1..]
    decreases |lines|
  {
    var left := WithoutOldest(lines, k);
    if k == 0 {
      if lines[0].hit {
        assert lines[1..][i - 1] == lines[i];
        NextOldest(lines[1..], k, i - 1);
      } else {
        assert i == 0;
        assert left[..0] + left[1..] == lines[1..];
      }
    } else if lines[0].hit {
      var rest := WithoutOldest(lines[1..], k);
      assert left[1..] == rest && i > 0;
      assert forall j | 0 <= j < |rest| :: rest[j] == left[j + 1];
      NextOldest(lines[1..], k, i - 1);
      assert left[..i] + left[i + 1..] == [lines[0]] + (rest[..i - 1] + rest[i..]);
    } else {
      NextOldest(lines[1..], k - 1, i);
    }
  }

  /** All off-topic lines are gone exactly when none is left. */
  lemma {:induction false} AllOldest(lines: seq<Line>, k: nat)
    requires k <= OffTopic(lines)
    ensures (forall j | 0 <= j < |WithoutOldest(lines, k)| :: WithoutOldest(lines, k)[j].hit) <==> k == OffTopic(lines)
    ensures |WithoutOldest(lines, k)| == |lines| - k
    decreases |lines|
  {
    if lines == [] {
    } else if k == 0 {
      NoneOff(lines);
      assert WithoutOldest(lines, 0) == lines;
    } else if lines[0].hit {
      AllOldest(lines[1..], k);
      var rest := WithoutOldest(lines[1..], k);
      assert WithoutOldest(lines, k)[1..] == rest;
      assert forall j | 0 <= j < |rest| :: rest[j] == WithoutOldest(lines, k)[j + 1];
      assert forall j | 0 < j < |rest| + 1 :: WithoutOldest(lines, k)[j] == rest[j - 1];
    } else {
      AllOldest(lines[1..], k - 1);
      assert WithoutOldest(lines, k) == WithoutOldest(lines[1..], k - 1);
    }
  }

  lemma {:induction false} NoneOff(lines: seq<Line>)
    ensures (forall j | 0 <= j < |lines| :: lines[j].hit) <==> OffTopic(lines) == 0
  {
    if lines == [] {
    } else {
      NoneOff(lines[1..]);
      assert forall j | 0 < j < |lines| :: lines[j] == lines[1..][j - 1];
      assert forall j | 0 <= j < |lines| - 1 :: lines[1..][j] == lines[j + 1];
    }
  }

  /** The first off-topic line. */
  function FirstOff(lines: seq<Line>, i: nat): (at: Option<nat>)
    requires i <= |lines|
    ensures at.Some? ==> i <= at.value < |lines| && !lines[at.value].hit && forall j | i <= j < at.value :: lines[j].hit
    ensures at.None? ==> forall j | i <= j < |lines| :: lines[j].hit
    decreases |lines| - i
  {
    if i == |lines| then None else if !lines[i].hit then Some(i) else FirstOff(lines, i + 1)
  }

  /** The lines left once the oldest off-topic one is dropped as long as the cap asks for it. */
  function Fit(header: seq<string>, lines: seq<Line>): seq<Line>
    decreases |lines|
  {
    var at := FirstOff(lines, 0);
    if OverCap(header, lines) && at.Some? then Fit(header, lines[..at.value] + lines[at.value + 1..]) else lines
  }

  lemma NoneDropped(lines: seq<Line>)
    ensures WithoutOldest(lines, 0) == lines
  {
  }

  /** What is left is the lines without the oldest off-topic ones, no more of them than the cap asks for. */
  lemma FitKeepsMost(header: seq<string>, lines: seq<Line>)
    ensures Fitted(header, lines, Fit(header, lines))
  {
    hide Rendered, WithoutOldest, OverCap, FirstOff;
    var left := lines;
    var k: nat := 0;
    NoneDropped(lines);
    while OverCap(header, left) && FirstOff(left, 0).Some?
      invariant k <= OffTopic(lines) && left == WithoutOldest(lines, k) && Fit(header, lines) == Fit(header, left)
      invariant forall j: nat | j < k :: OverCap(header, WithoutOldest(lines, j))
      decreases |left|
    {
      var at := FirstOff(left, 0).value;
      AllOldest(lines, k);
      NextOldest(lines, k, at);
      left := left[..at] + left[at + 1..];
      k := k + 1;
    }
    AllOldest(lines, k);
  }

  /** `body[:_SUMMARY_MAX_CHARS] + "…"` when it is longer. */
  function Capped(body: string): string {
    Truncate(body, MAX_CHARS)
  }

  /** `render_extractive`; without guidance words nothing is dropped before the cap cuts. */
  function Extractive(dropped: seq<Message>, guidance: string, topic: Topic, turns: nat): string {
    var header, lines := SummaryHeader(turns, guidance), LinesOf(dropped, topic);
    Capped(Rendered(header, if topic.None? then lines else Fit(header, lines)))
  }

  /** `render_extractive` as it runs: lines collected, then deleted from one by one. */
  method RenderExtractive(dropped: seq<Message>, guidance: string, topic: Topic, turns: nat) returns (text: string)
    ensures text == Extractive(dropped, guidance, topic, turns)
  {
    var header := SummaryHeader(turns, guidance);
    var lines: seq<Line> := [];
    for i := 0 to |dropped|
      invariant lines == LinesOf(dropped, topic)[..i]
    {
      lines := lines + [LineOf(dropped[i], topic)];
    }
    assert lines == LinesOf(dropped, topic);
    if topic.Some? {
      while |Rendered(header, lines)| > MAX_CHARS
        invariant Fit(header, lines) == Fit(header, LinesOf(dropped, topic))
        decreases |lines|
      {
        var at := FirstOff(lines, 0);
        if at.None? {
          break;
        }
        lines := lines[..at.value] + lines[at.value + 1..];
      }
    }
    text := Capped(Rendered(header, lines));
  }

  /** The number of lines dropped is fixed by the cap, so the summary is too. */
  lemma FittedOnce(header: seq<string>, lines: seq<Line>, a: seq<Line>, b: seq<Line>)
    requires Fitted(header, lines, a) && Fitted(header, lines, b)
    ensures a == b
  {
    hide OverCap, WithoutOldest;
    var i: nat :| i <= OffTopic(lines) && a == WithoutOldest(lines, i)
                  && (forall j: nat | j < i :: OverCap(header, WithoutOldest(lines, j)))
                  && (OverCap(header, a) ==> i == OffTopic(lines));
    var k: nat :| k <= OffTopic(lines) && b == WithoutOldest(lines, k)
                  && (forall j: nat | j < k :: OverCap(header, WithoutOldest(lines, j)))
                  && (OverCap(header, b) ==> k == OffTopic(lines));
  }

  /** On-topic lines are never dropped. */
  lemma {:induction false} HitsStay(lines: seq<Line>, k: nat, i: nat)
    requires i < |lines| && lines[i].hit
    ensures lines[i] in WithoutOldest(lines, k)
    decreases |lines|
  {
    if k > 0 && i > 0 {
      assert lines[1..][i - 1] == lines[i];
      HitsStay(lines[1..], if lines[0].hit then k else k - 1, i - 1);
    }
  }

  /** `render_model_core`. */
  function ModelCore(body: string, guidance: string, turns: nat): string {
    Join(SummaryHeader(turns, guidance) + [Stripped(body)], "\n")
  }

  // --------------------------------------------------- the count survives

  /** The count's line fits under the cap. */
  predicate HeaderFits(turns: nat) {
    |HeaderLine(turns)| <= MAX_CHARS
  }

  lemma JoinFirst(lines: seq<string>, sep: string)
    requires lines != []
    ensures Join(lines, sep) == lines[0] + if |lines| == 1 then "" else sep + Join(lines[1..], sep)
  {
    if |lines| > 1 {
      assert lines[0] + sep + Join(lines[1..], sep) == lines[0] + (sep + Join(lines[1..], sep));
    }
  }

  lemma RenderedHead(turns: nat, guidance: string, lines: seq<Line>)
    ensures var r := Rendered(SummaryHeader(turns, guidance), lines);
            |HeaderLine(turns)| <= |r| && r[..|HeaderLine(turns)|] == HeaderLine(turns)
  {
    hide HeaderLine, Join;
    var all := SummaryHeader(turns, guidance) + TextOf(lines);
    JoinFirst(all, "\n");
  }

  /** An extractive summary keeps its count exactly when the count's line fits under the cap. */
  lemma ExtractKeepsCount(dropped: seq<Message>, guidance: string, topic: Topic, turns: nat, more: string)
    ensures var text := Extractive(dropped, guidance, topic, turns) + more;
            && (ReadCount(text) == Some(turns) <==> HeaderFits(turns))
            && StartsWith(text, HEADER)
  {
    hide HeaderLine, Fit, ReadCount, Rendered, SummaryHeader, LinesOf;
    var header, lines := SummaryHeader(turns, guidance), LinesOf(dropped, topic);
    var kept := if topic.None? then lines else Fit(header, lines);
    var body, text := Rendered(header, kept), Extractive(dropped, guidance, topic, turns);
    RenderedHead(turns, guidance, kept);
    var line := HeaderLine(turns);
    assert line[..|HEADER|] == HEADER && |HEADER| < |line| by { LineHead(turns); }
    if HeaderFits(turns) {
      assert text[..|line|] == line;
      assert text + more == line + (text[|line|..] + more);
      HeaderReads(turns, text[|line|..] + more);
    } else {
      assert body[..MAX_CHARS] == line[..MAX_CHARS];
      assert text + more == line[..MAX_CHARS] + ([ELLIPSIS] + more);
      CutHeader(turns, more);
    }
    assert (text + more)[..|HEADER|] == line[..|HEADER|];
  }

  lemma LineHead(turns: nat)
    ensures |HEADER| < |HeaderLine(turns)| && HeaderLine(turns)[..|HEADER|] == HEADER
  {
    hide NatText;
  }

  /** A header line cut short has no count. */
  lemma CutHeader(turns: nat, more: string)
    requires !HeaderFits(turns)
    ensures ReadCount(HeaderLine(turns)[..MAX_CHARS] + ([ELLIPSIS] + more)) == None
  {
    hide NatText, LeadingDigits, StartsWith, HeaderLine, ReadCount;
    var d := NatText(turns);
    var close := if turns == 1 then " user turn)" else " user turns)";
    var m := MAX_CHARS - |HEADER + " ("|;
    var tail := [ELLIPSIS] + more;
    var text := HeaderLine(turns)[..MAX_CHARS] + tail;
    CutAfterOpen(turns, tail);
    if m <= |d| {
      assert (d + close)[..m] == d[..m];
      assert "" + tail == tail;
      NoCount(text, d[..m], "", tail);
    } else {
      var c := close[..m - |d|];
      assert (d + close)[..m] == d + c;
      assert d + c + tail == d + (c + tail);
      NoCount(text, d, c, tail);
    }
  }

  /** Digits and the start of a closing without its end count nothing. */
  lemma NoCount(text: string, digits: string, c: string, tail: string)
    requires |HEADER + " ("| <= |text| && text[|HEADER + " ("|..] == digits + (c + tail)
    requires forall i | 0 <= i < |digits| :: IsDigit(digits[i])
    requires tail != "" && tail[0] == ELLIPSIS && |c| < 12
    requires (c <= " user turn)" && c != " user turn)") || (c <= " user turns)" && c != " user turns)")
    ensures ReadCount(text) == None
  {
    hide NatValue, LeadingDigits, StartsWith;
    LeadingDigitsAt(digits, c + tail);
    assert (digits + (c + tail))[|digits|..] == c + tail;
    CutClose(c, tail);
  }

  lemma CutAfterOpen(turns: nat, tail: string)
    requires !HeaderFits(turns)
    ensures var text, open, close := HeaderLine(turns)[..MAX_CHARS] + tail, HEADER + " (",
                                     if turns == 1 then " user turn)" else " user turns)";
            && |open| <= MAX_CHARS < |open| + |NatText(turns) + close|
            && text[|open|..] == (NatText(turns) + close)[..MAX_CHARS - |open|] + tail
  {
    hide NatText;
    var open, d := HEADER + " (", NatText(turns);
    var close := if turns == 1 then " user turn)" else " user turns)";
    assert HeaderLine(turns) == open + (d + close);
  }

  lemma CutClose(c: string, tail: string)
    requires tail != "" && tail[0] == ELLIPSIS && |c| < 12
    requires (c <= " user turn)" && c != " user turn)") || (c <= " user turns)" && c != " user turns)")
    ensures !StartsWith(c + tail, " user turn)") && !StartsWith(c + tail, " user turns)")
  {
    var s, p, q := c + tail, " user turn)", " user turns)";
    assert s[|c|] == ELLIPSIS && forall i | 0 <= i < |c| :: s[i] == c[i];
    assert forall i | 0 <= i < 11 :: p[i] != ELLIPSIS;
    assert forall i | 0 <= i < 12 :: q[i] != ELLIPSIS;
    assert StartsWith(s, p) ==> forall i | 0 <= i < 11 :: s[i] == p[i];
    assert StartsWith(s, q) ==> forall i | 0 <= i < 12 :: s[i] == q[i];
    assert p[10] != q[10];
  }

  lemma ModelKeepsCount(body: string, guidance: string, turns: nat, more: string)
    ensures ReadCount(ModelCore(body, guidance, turns) + more) == Some(turns)
    ensures StartsWith(ModelCore(body, guidance, turns) + more, HEADER)
  {
    hide HeaderLine, Join, ReadCount, StartsWith, Stripped;
    var all := SummaryHeader(turns, guidance) + [Stripped(body)];
    JoinFirst(all, "\n");
    var rest := "\n" + Join(all[1..], "\n");
    assert HeaderLine(turns) + rest + more == HeaderLine(turns) + (rest + more);
    HeaderReads(turns, rest + more);
  }

  /** Every count a session can reach fits: its line is short of the cap by far. */
  lemma CountsFit(turns: nat)
    requires turns < Pow10(1900)
    ensures HeaderFits(turns)
  {
    hide NatText, Pow10;
    NatTextLength(turns, 1900);
  }
}
