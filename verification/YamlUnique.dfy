/**
 The printer is unambiguous: two well-formed documents with the same text have the same value.
 */
module YamlUnique {
  import opened Text
  import opened Decimal
  import opened YamlValue
  import opened YamlEmit
  import opened YamlBlock
  import opened YamlTree
  import opened YamlBuild
  import opened YamlMarks
  import opened YamlRemovePrints
  import opened YamlFits
  import opened YamlSwallow
  import opened YamlFlowUnique

  // ------------------------------------------------------------------ lines

  /** The rest of the line. */
  function LineOf(s: string): (line: string)
    ensures |line| <= |s| && line == s[..|line|] && OneLine(line)
    ensures |line| < |s| ==> s[|line|] in "\r\n"
  {
    if s == "" || s[0] in "\r\n" then "" else [s[0]] + LineOf(s[1..])
  }

  /** At the end of a line. */
  predicate Broken(s: string) {
    s == "" || s[0] in "\r\n"
  }

  lemma LineUnique(a: string, x: string, b: string, y: string)
    requires OneLine(a) && OneLine(b) && Broken(x) && Broken(y) && a + x == b + y
    ensures a == b && x == y
  {
    var s := a + x;
    assert (forall i | 0 <= i < |a| :: s[i] == a[i]) && forall i | 0 <= i < |b| :: s[i] == b[i];
    assert (|a| < |s| ==> s[|a|] == x[0]) && (|b| < |s| ==> s[|b|] == y[0]);
    assert |a| == |b|;
    assert a == s[..|a|] && b == s[..|b|] && x == s[|a|..] && y == s[|b|..];
  }

  lemma LineOfIs(a: string, x: string)
    requires OneLine(a) && Broken(x)
    ensures LineOf(a + x) == a && (a + x)[|a|..] == x
  {
    var s := a + x;
    var line := LineOf(s);
    assert s == line + s[|line|..];
    LineUnique(a, x, line, s[|line|..]);
  }

  /** Past one line break. */
  function PastBreak(s: string): string
    requires s != "" && s[0] in "\r\n"
  {
    if s[0] == '\r' && |s| > 1 && s[1] == '\n' then s[2..] else s[1..]
  }

  /** A column, and the text from there on. */
  datatype Place = Place(col: nat, text: string)

  predicate Dashed(t: string) {
    t != "" && t[0] == '-'
  }

  /** The next line with something on it that is no comment. */
  function Next(s: string): Option<Place>
    decreases |s|
  {
    if s == "" || s[0] !in "\r\n" then None
    else
      var line := PastBreak(s);
      var pad := LeadingSpaces(line);
      var x := line[pad..];
      if x == "" then None
      else if x[0] in "\r\n" then Next(x)
      else if x[0] == '#' then Next(x[|LineOf(x)|..])
      else Some(Place(pad, x))
  }

  /** Comment and blank lines, then nothing, or something at the last line's pad. */
  predicate Lead(brs: seq<Br>, t: string) {
    && (forall b | b in brs :: Trivia(b))
    && (t == "" || (brs != [] && brs[|brs| - 1].note == "" && Shown(t)))
  }

  lemma BreakOf(b: Br, x: string)
    requires Trivia(b)
    ensures PrintBr(b) + x != "" && (PrintBr(b) + x)[0] in "\r\n"
    ensures PastBreak(PrintBr(b) + x) == Spaces(b.pad) + (b.note + x)
  {
    hide Spaces;
    BrGlue(b.nl, Spaces(b.pad), b.note, "", x);
  }

  lemma LeadBroken(brs: seq<Br>, t: string)
    requires Lead(brs, t)
    ensures Broken(PrintBrs(brs) + t)
  {
    hide Trivia, PastBreak, PrintBr;
    if brs == [] {
      assert PrintBrs(brs) + t == "";
    } else {
      assert brs[0] in brs;
      FirstBr(brs, t);
      BreakOf(brs[0], PrintBrs(brs[1..]) + t);
    }
  }

  lemma FirstBr(brs: seq<Br>, t: string)
    requires brs != []
    ensures PrintBrs(brs) + t == PrintBr(brs[0]) + (PrintBrs(brs[1..]) + t)
  {
    hide PrintBr;
  }

  lemma PadOf(pad: nat, x: string)
    requires x == "" || x[0] != ' '
    ensures LeadingSpaces(Spaces(pad) + x) == pad && (Spaces(pad) + x)[pad..] == x
  {
    hide *;
    var s := Spaces(pad) + x;
    assert x != "" ==> s[pad] == x[0];
  }

  lemma {:induction false} NextIs(brs: seq<Br>, t: string)
    requires Lead(brs, t)
    ensures Next(PrintBrs(brs) + t) == if t == "" then None else Some(Place(brs[|brs| - 1].pad, t))
  {
    hide Trivia, PrintBr, Next, Shown, PrintBrs, Broken;
    if brs == [] {
      NoBrs(t);
      NextNone();
    } else {
      var b, later := brs[0], PrintBrs(brs[1..]) + t;
      assert b in brs && forall c | c in brs[1..] :: c in brs;
      FirstBr(brs, t);
      if |brs| == 1 && t != "" {
        NoBrs(t);
        NextShown(b, later);
      } else {
        LeadBroken(brs[1..], t);
        NextPast(b, later);
        NextIs(brs[1..], t);
      }
    }
  }

  lemma NextShown(b: Br, t: string)
    requires Trivia(b) && b.note == "" && Shown(t)
    ensures Next(PrintBr(b) + t) == Some(Place(b.pad, t))
  {
    hide Trivia, PrintBr, PastBreak, LeadingSpaces;
    BreakOf(b, t);
    assert b.note + t == t;
    PadOf(b.pad, t);
  }

  /** Past a blank line or a comment. */
  lemma NextPast(b: Br, later: string)
    requires Trivia(b) && Broken(later)
    ensures Next(PrintBr(b) + later) == Next(later)
  {
    hide Trivia, PrintBr, PastBreak, LeadingSpaces;
    BreakOf(b, later);
    TriviaParts(b);
    PadOf(b.pad, b.note + later);
    if b.note == "" {
      assert b.note + later == later;
      if later == "" { NextNone(); }
    } else {
      LineOfIs(b.note, later);
    }
  }

  lemma NextNone()
    ensures Next("") == None
  {
  }

  lemma TriviaParts(b: Br)
    requires Trivia(b)
    ensures OneLine(b.note) && (b.note == "" || b.note[0] == '#')
  {
  }

  // --------------------------------------------------------- literal blocks

  /** The lines of a block's body, and what follows them. */
  predicate BodyLines(body: seq<Br>) {
    forall b | b in body :: LineBreak(b.nl) && OneLine(b.note)
  }

  lemma BodyBroken(body: seq<Br>, r: string)
    requires BodyLines(body) && Broken(r)
    ensures Broken(PrintBrs(body) + r)
  {
    hide PrintBrs, Lines, Spaces;
    if body == [] {
      NoBrs(r);
    } else {
      assert body[0] in body;
      FirstBrText(body, r);
      assert (PrintBrs(body) + r)[0] == body[0].nl[0];
    }
  }

  /** One line of a body, and the rest. */
  lemma BodyFirstLine(body: seq<Br>, r: string)
    requires BodyLines(body) && Broken(r) && body != []
    ensures var s := PrintBrs(body) + r;
            && s != "" && s[0] in "\r\n" && PastBreak(s) == Lines(body)[0] + (PrintBrs(body[1..]) + r)
    ensures BodyLines(body[1..]) && Broken(PrintBrs(body[1..]) + r)
    ensures OneLine(Lines(body)[0]) && Lines(body)[1..] == Lines(body[1..])
  {
    hide OneLine, Broken, PastBreak, PrintBrs, Lines, Spaces;
    var b, later := body[0], PrintBrs(body[1..]) + r;
    assert b in body && forall c | c in body[1..] :: c in body;
    BodyBroken(body[1..], r);
    LineText(b, later);
    FirstBrText(body, r);
  }

  lemma FirstBrText(body: seq<Br>, r: string)
    requires body != []
    ensures var b := body[0];
            && PrintBrs(body) + r == b.nl + (Spaces(b.pad) + b.note + (PrintBrs(body[1..]) + r))
            && Lines(body)[0] == Spaces(b.pad) + b.note && Lines(body)[1..] == Lines(body[1..])
  {
    var b := body[0];
    BrGlue(b.nl, Spaces(b.pad), b.note, PrintBrs(body[1..]), r);
    assert Lines(body)[0] == Spaces(body[0].pad) + body[0].note && Lines(body)[1..] == Lines(body[1..]) by {
      var all, rest := Lines(body), Lines(body[1..]);
      assert forall i | 0 <= i < |rest| :: all[1..][i] == rest[i];
    }
  }

  lemma BrGlue(nl: string, pad: string, note: string, later: string, r: string)
    ensures ((nl + pad + note) + later) + r == nl + (pad + note + (later + r))
    ensures (nl + pad + note) + r == nl + (pad + (note + r))
  {
  }

  lemma LineText(b: Br, later: string)
    requires LineBreak(b.nl) && OneLine(b.note)
    ensures var s := b.nl + (Spaces(b.pad) + b.note + later);
            s != "" && s[0] in "\r\n" && PastBreak(s) == (Spaces(b.pad) + b.note) + later
              && OneLine(Spaces(b.pad) + b.note)
  {
    var line := Spaces(b.pad) + b.note;
    assert forall i | 0 <= i < |line| :: line[i] == if i < b.pad then ' ' else b.note[i - b.pad];
    assert b.pad == 0 && b.note == "" ==> line + later == later;
  }

  /** A line with something shown on it is the first of no block as deep as that. */
  lemma ShownLine(body: seq<Br>, later: string, pad: nat, t: string, indent: nat)
    requires body != [] && OneLine(Lines(body)[0]) && Broken(later) && Shown(t) && pad < indent
    requires Outdented(Lines(body), indent).Some?
    ensures Lines(body)[0] + later != Spaces(pad) + t
  {
    hide Outdented, LeadingSpaces, Lines, Spaces;
    var line, first := Lines(body)[0], LineOf(t);
    assert t[0] !in "\r\n" && first[0] == t[0];
    assert Spaces(pad) + t == (Spaces(pad) + first) + t[|first|..];
    PadOf(pad, first);
    OutdentedFirst(Lines(body), indent);
    PadLine(pad, first);
    if line + later == Spaces(pad) + t {
      LineUnique(line, later, Spaces(pad) + first, t[|first|..]);
    }
  }

  lemma PadLine(pad: nat, line: string)
    requires OneLine(line)
    ensures OneLine(Spaces(pad) + line)
  {
    var s := Spaces(pad) + line;
    assert forall i | 0 <= i < |s| :: s[i] == if i < pad then ' ' else line[i - pad];
  }

  lemma OutdentedFirst(lines: seq<string>, indent: nat)
    requires lines != [] && Outdented(lines, indent).Some?
    ensures LeadingSpaces(lines[0]) >= indent || LeadingSpaces(lines[0]) == |lines[0]|
  {
  }

  /** Nor is a comment; a line of spaces may be, but is not the last. */
  lemma RemarkLine(body: seq<Br>, b: Br, indent: nat)
    requires body != [] && Lines(body)[0] == Spaces(b.pad) + b.note && Trivia(b)
    requires HasInk(body[|body| - 1].note) && Outdented(Lines(body), indent).Some?
    requires b.pad < indent || (b.note == "" && b.pad == indent)
    ensures b.note == "" && |body| > 1
  {
    hide Outdented, LeadingSpaces;
    PadOf(b.pad, b.note);
    OutdentedFirst(Lines(body), indent);
    var line, note := Lines(body)[0], body[|body| - 1].note;
    assert line == Spaces(body[0].pad) + body[0].note;
    assert body[0].note == line[body[0].pad..];
    assert b.note == "" ==> forall i | 0 <= i < |line| :: line[i] == ' ';
  }

  /** No line shown that is not as deep as a block can be read as part of it, nor a line above it. */
  lemma {:induction false} NoDeeper(brs: seq<Br>, t: string, body: seq<Br>, r: string, indent: nat)
    requires Lead(brs, t) && Spares(brs, indent) && (t != "" ==> brs[|brs| - 1].pad < indent)
    requires BodyLines(body) && Broken(r) && PrintBrs(brs) + t == PrintBrs(body) + r
    requires body != [] ==> HasInk(body[|body| - 1].note) && Outdented(Lines(body), indent).Some?
    ensures body == []
    decreases |body|
  {
    hide Trivia, PastBreak, Outdented, HasInk, Lines, PrintBr, OneLine, BodyLines, Broken;
    if body == [] {
    } else {
      BodyFirstLine(body, r);
      var later := PrintBrs(body[1..]) + r;
      assert brs != [];
      var b, after := brs[0], PrintBrs(brs[1..]) + t;
      assert b in brs && forall c | c in brs[1..] :: c in brs;
      FirstBr(brs, t);
      BreakOf(b, after);
      TriviaParts(b);
      if |brs| == 1 && t != "" {
        assert b.note + after == t;
        ShownLine(body, later, b.pad, t, indent);
      } else {
        LeadBroken(brs[1..], t);
        PadLine(b.pad, b.note);
        assert Spaces(b.pad) + (b.note + after) == (Spaces(b.pad) + b.note) + after;
        LineUnique(Lines(body)[0], later, Spaces(b.pad) + b.note, after);
        RemarkLine(body, b, indent);
        OutdentedTail(Lines(body), 1, indent);
        NoDeeper(brs[1..], t, body[1..], r, indent);
      }
    }
  }

  lemma {:induction false} OutdentedTail(lines: seq<string>, k: nat, indent: nat)
    requires k <= |lines| && Outdented(lines, indent).Some?
    ensures Outdented(lines[k..], indent).Some?
  {
    if k == 0 {
      assert lines[0..] == lines;
    } else {
      OutdentedTail(lines[1..], k - 1, indent);
      assert lines[k..] == lines[1..][k - 1..];
    }
  }

  /** The shorter of two bodies is where the longer one starts. */
  lemma {:induction false} BodyPrefix(a: seq<Br>, ra: string, b: seq<Br>, rb: string)
    requires BodyLines(a) && BodyLines(b) && Broken(ra) && Broken(rb) && |a| <= |b|
    requires PrintBrs(a) + ra == PrintBrs(b) + rb
    ensures Lines(a) == Lines(b)[..|a|] && ra == PrintBrs(b[|a|..]) + rb
  {
    hide PastBreak, Lines, BodyLines, Broken, OneLine;
    if a == [] {
      assert b[0..] == b && PrintBrs(a) + ra == ra;
      assert Lines(a) == [];
      assert Lines(b)[..0] == [];
    } else {
      BodyFirstLine(a, ra);
      BodyFirstLine(b, rb);
      var xa, xb := PrintBrs(a[1..]) + ra, PrintBrs(b[1..]) + rb;
      LineUnique(Lines(a)[0], xa, Lines(b)[0], xb);
      BodyPrefix(a[1..], ra, b[1..], rb);
      assert b[1..][|a| - 1..] == b[|a|..];
      assert Lines(a) == [Lines(a)[0]] + Lines(a)[1..];
      assert Lines(b)[..|a|] == [Lines(b)[0]] + Lines(b)[1..][..|a| - 1];
    }
  }

  lemma NoBrs(r: string)
    ensures PrintBrs([]) + r == r
  {
  }

  lemma LinesOf(body: seq<Br>, k: nat)
    requires k <= |body|
    ensures Lines(body[k..]) == Lines(body)[k..]
  {
  }

  /** What stands after a literal block: lines that are not as deep, then what is shown at `col` or left of it. */
  predicate AfterLiteral(n: Node, brs: seq<Br>, t: string, col: nat) {
    && n.Literal? && Sound(n) && n.indent > col && Lead(brs, t) && Follows(n, brs)
    && (t != "" ==> brs[|brs| - 1].pad <= col)
  }

  lemma LiteralParts(n: Node, brs: seq<Br>, t: string, col: nat)
    requires AfterLiteral(n, brs, t, col)
    ensures BodyLines(n.body) && n.body != [] && HasInk(n.body[|n.body| - 1].note) && OneLine(n.note)
    ensures n.note == "" || n.note[0] == ' '
    ensures BlockIndent(Lines(n.body)) == Some(n.indent) && Outdented(Lines(n.body), n.indent).Some?
    ensures Spares(brs, n.indent)
  {
    hide Lines, BlockIndent, Outdented, HasInk;
  }

  lemma ShorterBody(a: Node, ba: seq<Br>, ta: string, b: Node, bb: seq<Br>, tb: string, col: nat)
    requires AfterLiteral(a, ba, ta, col) && AfterLiteral(b, bb, tb, col) && |a.body| <= |b.body|
    requires PrintBrs(a.body) + (PrintBrs(ba) + ta) == PrintBrs(b.body) + (PrintBrs(bb) + tb)
    ensures Lines(a.body) == Lines(b.body) && PrintBrs(ba) + ta == PrintBrs(bb) + tb
  {
    hide Lines, Follows, Lead, HasInk, Sound, BlockIndent, Outdented, PrintBrs, OneLine, Broken;
    LiteralParts(a, ba, ta, col);
    LiteralParts(b, bb, tb, col);
    LeadBroken(ba, ta);
    LeadBroken(bb, tb);
    var n, rb := |a.body|, PrintBrs(bb) + tb;
    BodyPrefix(a.body, PrintBrs(ba) + ta, b.body, rb);
    FirstIndent(Lines(a.body), Lines(b.body)[n..]);
    assert Lines(b.body)[..n] + Lines(b.body)[n..] == Lines(b.body);
    LinesOf(b.body, n);
    OutdentedTail(Lines(b.body), n, b.indent);
    assert forall c | c in b.body[n..] :: c in b.body;
    NoDeeper(ba, ta, b.body[n..], rb, a.indent);
    NoBrs(rb);
    assert Lines(b.body)[..n] == Lines(b.body);
  }

  /** A literal block reads one way. */
  lemma LiteralUnique(a: Node, ba: seq<Br>, ta: string, b: Node, bb: seq<Br>, tb: string, col: nat)
    requires a.Literal? && b.Literal? && AfterLiteral(a, ba, ta, col) && AfterLiteral(b, bb, tb, col)
    requires PrintNode(a) + (PrintBrs(ba) + ta) == PrintNode(b) + (PrintBrs(bb) + tb)
    ensures NodeValue(a) == NodeValue(b) && PrintBrs(ba) + ta == PrintBrs(bb) + tb
  {
    hide AfterLiteral, Sound, Lines, ReadBlock, PrintNode, PrintBrs, OneLine, Broken;
    assert NodeValue(a) == LiteralValue(a) && NodeValue(b) == LiteralValue(b);
    LiteralHeader(a, ba, ta, col);
    LiteralHeader(b, bb, tb, col);
    var ra, rb := PrintBrs(ba) + ta, PrintBrs(bb) + tb;
    var xa, xb := PrintBrs(a.body) + ra, PrintBrs(b.body) + rb;
    var s := PrintNode(a) + ra;
    assert (if a.clip then s[1..] else s[2..]) == a.note + xa == b.note + xb;
    LineUnique(a.note, xa, b.note, xb);
    if |a.body| <= |b.body| {
      ShorterBody(a, ba, ta, b, bb, tb, col);
    } else {
      ShorterBody(b, bb, tb, a, ba, ta, col);
    }
  }

  function LiteralValue(n: Node): Value
    requires n.Literal?
  {
    match ReadBlock(n.clip, Lines(n.body))
    case Some(text) => Str(text)
    case None => Null
  }

  lemma LiteralHeader(n: Node, brs: seq<Br>, t: string, col: nat)
    requires n.Literal? && AfterLiteral(n, brs, t, col)
    ensures var r := PrintBrs(brs) + t;
            var s, x := PrintNode(n) + r, PrintBrs(n.body) + r;
            && |s| > 1 && s[0] == '|' && (s[1] == '-' <==> !n.clip)
            && (if n.clip then s[1..] else s[2..]) == n.note + x && Broken(x) && OneLine(n.note)
  {
    hide Sound, HasInk, OneLine, BlockIndent, Outdented, Follows, Lead, Lines, BodyLines, Broken, PrintBrs,
         PastBreak, PrintNode;
    LiteralParts(n, brs, t, col);
    LeadBroken(brs, t);
    var r := PrintBrs(brs) + t;
    BodyBroken(n.body, r);
    BodyFirstLine(n.body, r);
    HeaderText(n, PrintBrs(n.body) + r);
    LiteralText(n, r);
  }

  lemma LiteralText(n: Node, r: string)
    requires n.Literal?
    ensures PrintNode(n) + r == (if n.clip then "|" else "|-") + n.note + (PrintBrs(n.body) + r)
  {
    hide PrintBrs;
  }

  lemma HeaderText(n: Node, x: string)
    requires n.Literal? && x != "" && x[0] in "\r\n" && (n.note == "" || n.note[0] == ' ')
    ensures var s := (if n.clip then "|" else "|-") + n.note + x;
            && |s| > 1 && s[0] == '|' && (s[1] == '-' <==> !n.clip)
            && (if n.clip then s[1..] else s[2..]) == n.note + x
  {
    var s := (if n.clip then "|" else "|-") + n.note + x;
    assert n.clip ==> s[1] == (n.note + x)[0];
  }

  // --------------------------------------------------- where a value stands

  lemma {:induction false} RemarkShown(gap: string, x: string)
    requires AllSpaces(gap) && Shown(x) && OneLine(x)
    ensures !Remark(gap + x)
  {
    hide OneLine;
    if gap == "" {
      assert gap + x == x;
    } else {
      assert (gap + x)[1..] == gap[1..] + x;
      RemarkShown(gap[1..], x);
    }
  }

  /** Where a text after a mark at `base` shows something, on the same line or a later one. */
  function Seat(s: string, base: nat): Option<Place> {
    var line := LineOf(s);
    if Remark(line) then Next(s[|line|..])
    else Some(Place(base + LeadingSpaces(s), s[LeadingSpaces(s)..]))
  }

  lemma SeatInline(gap: string, x: string, base: nat)
    requires AllSpaces(gap) && Shown(x)
    ensures Seat(gap + x, base) == Some(Place(base + |gap|, x))
  {
    hide Remark, LeadingSpaces, Spaces;
    var first := LineOf(x);
    assert x[0] !in "\r\n" && first[0] == x[0];
    assert gap + x == (gap + first) + x[|first|..];
    assert OneLine(gap + first);
    LineOfIs(gap + first, x[|first|..]);
    RemarkShown(gap, first);
    assert gap == Spaces(|gap|);
    PadOf(|gap|, x);
  }

  lemma SeatLater(gap: string, brs: seq<Br>, t: string, base: nat)
    requires OneLine(gap) && Remark(gap) && Lead(brs, t)
    ensures Seat(gap + (PrintBrs(brs) + t), base) == if t == "" then None else Some(Place(brs[|brs| - 1].pad, t))
  {
    hide Remark, Next, Lead, PrintBrs;
    LeadBroken(brs, t);
    LineOfIs(gap, PrintBrs(brs) + t);
    NextIs(brs, t);
  }

  lemma TrailingRemark(s: string)
    requires Trailing(s)
    ensures OneLine(s) && Remark(s)
  {
  }

  // ------------------------------------------------------- block collections

  /** What may follow a child of a block collection at `col`: a sibling, or what is left of it. */
  predicate AfterChild(brs: seq<Br>, t: string, col: nat, isMap: bool) {
    && Lead(brs, t)
    && (t != "" ==> brs[|brs| - 1].pad <= col && (isMap && brs[|brs| - 1].pad == col ==> !Dashed(t)))
  }

  /** What may follow the collection: a list may stand under a key in the key's own column. */
  predicate AfterColl(brs: seq<Br>, t: string, col: nat, isMap: bool) {
    && Lead(brs, t)
    && (t != "" ==> brs[|brs| - 1].pad <= col && (brs[|brs| - 1].pad == col ==> !isMap && !Dashed(t)))
  }

  predicate Marked(k: Kid, isMap: bool) {
    if isMap then KeySound(k.mark) else k.mark.Dash?
  }

  /** The children of a block collection from one of them on. */
  predicate KidRun(kids: seq<Kid>, col: nat, isMap: bool, brs: seq<Br>, t: string) {
    && kids != []
    && (forall i | 0 <= i < |kids| :: Sound(kids[i].node) && Placed(kids[i], col) && Marked(kids[i], isMap))
    && (forall i | 0 < i < |kids| :: kids[i].sep == "" && Leads(kids[i].lead, col))
    && (forall i | 0 <= i < |kids| - 1 :: Follows(kids[i].node, kids[i + 1].lead))
    && Follows(kids[|kids| - 1].node, brs) && AfterColl(brs, t, col, isMap)
  }

  /** A value where it stands: its tail, and what may follow it. */
  predicate Settled(n: Node, tail: string, brs: seq<Br>, t: string, at: nat, col: nat) {
    && Sound(n) && PrintNode(n) != "" && Lead(brs, t) && Follows(n, brs)
    && (t != "" ==> brs[|brs| - 1].pad <= col)
    && match n
       case Scalar(_, _) => Trailing(tail)
       case Literal(_, _, indent, _) => tail == "" && indent > col
       case Coll(flow, isMap, c, _, _) =>
         if flow then Trailing(tail) else tail == "" && c == at && AfterColl(brs, t, at, isMap)
  }

  lemma MarkShown(k: Kid, col: nat, isMap: bool)
    requires Placed(k, col) && Marked(k, isMap)
    ensures Shown(KidRest(k)) && (KidRest(k)[0] == '-' <==> !isMap) && KidRest(k)[0] !in "|[{"
    ensures |MarkText(k.mark)| > 0
  {
    hide KeySound, PrintNode, Placed;
    if isMap {
      KeyShown(k.mark);
    }
  }

  /** A list's item has no digit after its dash. */
  lemma DashSpaced(k: Kid, col: nat, r: string)
    requires Placed(k, col) && k.mark.Dash? && Sound(k.node) && Broken(r)
    ensures var s := KidRest(k) + r; |s| < 2 || !IsDigit(s[1])
  {
    hide Sound, Leads, Remark, StartCol;
    var s := KidRest(k) + r;
    if k.gap != "" {
      assert s[1] == k.gap[0];
    } else if k.drop != [] {
      assert k.drop[0] in k.drop;
      LeadsFirst(k.drop, StartCol(k, col));
      assert PrintBrs(k.drop) == PrintBr(k.drop[0]) + PrintBrs(k.drop[1..]);
      assert s[1] == k.drop[0].nl[0];
    } else {
      assert KidRest(k) == "-" + k.tail;
      if k.tail != "" {
        assert s[1] == k.tail[0];
      } else if r != "" {
        assert s[1] == r[0];
      }
    }
  }

  lemma LeadsFirst(brs: seq<Br>, col: nat)
    requires Leads(brs, col)
    ensures LineBreak(brs[0].nl)
  {
    assert brs[0] in brs;
  }

  /** No scalar at the end of its line is a key. */
  lemma ScalarNoKey(src: string, tail: string, r: string, mark: Mark, x: string)
    requires src != "" && ReadScalar(src).Some? && Trailing(tail) && Broken(r) && KeySound(mark)
    ensures src + (tail + r) != MarkText(mark) + x
  {
    hide ReadScalar, Remark, Trailing;
    KeyShown(mark);
    TrailingRemark(tail);
    var y := mark.sp + (":" + x);
    assert MarkText(mark) + x == mark.src + y;
    LineOfIs(tail, r);
    var first := LineOf(":" + x);
    assert y == (mark.sp + first) + (":" + x)[|first|..];
    LineOfIs(mark.sp + first, (":" + x)[|first|..]);
    RemarkShown(mark.sp, first);
    assert tail + r != y;
    if src + (tail + r) == mark.src + y {
      EndsAfter(tail, r);
      SrcUnique(src, tail + r, mark.src, y);
    }
  }

  lemma EndsAfter(tail: string, r: string)
    requires Trailing(tail) && Broken(r)
    ensures Ends(tail + r)
  {
    if tail == "" {
      assert tail + r == r;
    }
  }

  lemma BlockParts(n: Node, brs: seq<Br>, t: string)
    requires Sound(n) && n.Coll? && !n.flow && Follows(n, brs) && AfterColl(brs, t, n.col, n.isMap)
    ensures n.kids != [] && KidRun(n.kids, n.col, n.isMap, brs, t)
    ensures PrintNode(n) == KidRest(n.kids[0]) + PrintKids(n.kids[1..])
  {
    hide NodeOk, Spelled, KeySpelled, KeyOk, Placed, Leads, PrintKids, AfterColl, KidRest, FlowShape;
    CollParts(n);
    SpelledKids(n);
    FirstKidText(n);
    LastFollows(n, brs);
    forall i | 0 <= i < |n.kids| ensures Placed(n.kids[i], n.col) && Marked(n.kids[i], n.isMap) {
      assert BlockKidOk(n.kids[i], n.col, i == 0, n.isMap);
    }
  }

  lemma SpelledKids(n: Node)
    requires Spelled(n) && n.Coll?
    ensures forall i | 0 <= i < |n.kids| :: KeySpelled(n.kids[i].mark) && Spelled(n.kids[i].node)
  {
  }

  lemma LastFollows(n: Node, brs: seq<Br>)
    requires n.Coll? && !n.flow && n.kids != [] && Follows(n, brs)
    ensures Follows(n.kids[|n.kids| - 1].node, brs)
  {
  }

  lemma FirstKidText(n: Node)
    requires n.Coll? && !n.flow && n.kids != [] && n.close == "" && BlockKidOk(n.kids[0], n.col, true, n.isMap)
    ensures PrintNode(n) == KidRest(n.kids[0]) + PrintKids(n.kids[1..])
  {
    hide PrintKids, KidRest, Placed, PrintKid;
    RestPrints(n.kids[0]);
    KidsCons(n.kids[0], n.kids[1..]);
    assert [n.kids[0]] + n.kids[1..] == n.kids;
    assert KidLead(n.kids[0]) == "";
  }

  lemma SettledShown(n: Node, tail: string, brs: seq<Br>, t: string, at: nat, col: nat)
    requires Settled(n, tail, brs, t, at, col)
    ensures Shown(PrintNode(n)) && Broken(PrintBrs(brs) + t)
    ensures n.Literal? <==> PrintNode(n)[0] == '|'
    ensures n.Coll? && n.flow <==> PrintNode(n)[0] in "[{"
    ensures n.Coll? && !n.flow && !n.isMap ==> PrintNode(n)[0] == '-'
    ensures n.Coll? && !n.flow && n.isMap ==> PrintNode(n)[0] != '-'
  {
    hide Lead, PrintKids, PrintBrs;
    LeadBroken(brs, t);
    if n.Coll? && !n.flow {
      BlockParts(n, brs, t);
      assert Shown(KidRest(n.kids[0])) && (KidRest(n.kids[0])[0] == '-' <==> !n.isMap)
             && KidRest(n.kids[0])[0] !in "|[{" by {
        hide Sound, Placed, Marked, Leads, Follows, AfterColl, KidRest;
        MarkShown(n.kids[0], n.col, n.isMap);
      }
    } else if n.Literal? {
    } else {
      NodeShown(n);
      assert PrintNode(n)[0] != '|' by {
        hide ReadPlain, ReadQuoted, FlowKidOk;
        if n.Scalar? && n.src[0] != '\"' {
          PlainTokens(n.src);
        }
      }
    }
  }

  /** What follows the first child of a run: the lines before the next child and the rest, or what follows the run. */
  function NextLines(kids: seq<Kid>, brs: seq<Br>): seq<Br>
    requires kids != []
  {
    if |kids| > 1 then kids[1].lead else brs
  }

  function NextText(kids: seq<Kid>, brs: seq<Br>, t: string): string
    requires kids != []
  {
    if |kids| > 1 then KidRest(kids[1]) + PrintKids(kids[2..]) + PrintBrs(brs) + t else t
  }

  lemma RunStep(kids: seq<Kid>, col: nat, isMap: bool, brs: seq<Br>, t: string)
    requires kids != [] && KidRun(kids, col, isMap, brs, t)
    ensures var lines, text := NextLines(kids, brs), NextText(kids, brs, t);
            && KidRest(kids[0]) + PrintKids(kids[1..]) + PrintBrs(brs) + t
               == KidRest(kids[0]) + (PrintBrs(lines) + text)
            && AfterChild(lines, text, col, isMap) && Follows(kids[0].node, lines)
            && Sound(kids[0].node) && Placed(kids[0], col) && Marked(kids[0], isMap)
            && var next := Next(PrintBrs(lines) + text);
               if |kids| > 1 then
                 KidRun(kids[1..], col, isMap, brs, t) && next == Some(Place(col, text)) && (Dashed(text) <==> !isMap)
               else
                 next == None || (next.value.col <= col
                   && (next.value.col == col ==> !isMap && !Dashed(next.value.text)))
  {
    hide Sound, Placed, Marked, Follows, KidRest, PrintKids, PrintBrs, Next, Leads, Lead, NextText, Dashed, AfterChild;
    var lines, text := NextLines(kids, brs), NextText(kids, brs, t);
    RunText(kids, col, isMap, brs, t);
    if |kids| > 1 {
      SiblingNext(kids, col, isMap, brs, t);
      NextIs(lines, text);
      assert KidRun(kids[1..], col, isMap, brs, t) by {
        hide Sound, Placed, Marked, Follows, Leads, AfterColl;
        var rest := kids[1..];
        assert forall i | 0 <= i < |rest| :: rest[i] == kids[i + 1];
      }
    } else {
      RunEnds(kids, col, isMap, brs, t);
      NextIs(lines, text);
    }
  }

  lemma RunText(kids: seq<Kid>, col: nat, isMap: bool, brs: seq<Br>, t: string)
    requires kids != [] && KidRun(kids, col, isMap, brs, t)
    ensures KidRest(kids[0]) + PrintKids(kids[1..]) + PrintBrs(brs) + t
            == KidRest(kids[0]) + (PrintBrs(NextLines(kids, brs)) + NextText(kids, brs, t))
  {
    hide Sound, Placed, Marked, Follows, KidRest, PrintKids, PrintBrs, Leads, AfterColl, PrintKid;
    if |kids| > 1 {
      var k := kids[1];
      RestPrints(k);
      KidsCons(k, kids[2..]);
      assert [k] + kids[2..] == kids[1..];
      assert KidLead(k) == PrintBrs(k.lead) by { assert "" + PrintBrs(k.lead) == PrintBrs(k.lead); }
      var first := KidRest(kids[0]);
      var lead := PrintBrs(k.lead);
      var rest := KidRest(k);
      var more := PrintKids(kids[2..]);
      assert first + ((lead + rest) + more) + PrintBrs(brs) + t == first + (lead + (rest + more + PrintBrs(brs) + t));
    } else {
      NoKids();
      assert kids[1..] == [];
      Regroup(KidRest(kids[0]), "", PrintBrs(brs), t);
      assert KidRest(kids[0]) + "" == KidRest(kids[0]);
    }
  }

  lemma SiblingNext(kids: seq<Kid>, col: nat, isMap: bool, brs: seq<Br>, t: string)
    requires |kids| > 1 && KidRun(kids, col, isMap, brs, t)
    ensures var lines, text := NextLines(kids, brs), NextText(kids, brs, t);
            && Lead(lines, text) && text != "" && lines[|lines| - 1].pad == col && (Dashed(text) <==> !isMap)
            && AfterChild(lines, text, col, isMap)
  {
    hide Sound, Placed, Marked, Follows, KidRest, PrintKids, PrintBrs, Leads, Lead, AfterColl;
    var lines, text := NextLines(kids, brs), NextText(kids, brs, t);
    MarkShown(kids[1], col, isMap);
    assert text[0] == KidRest(kids[1])[0];
    LeadsLead(lines, text, col);
    LeadsLast(lines, col);
  }

  lemma RunEnds(kids: seq<Kid>, col: nat, isMap: bool, brs: seq<Br>, t: string)
    requires |kids| == 1 && KidRun(kids, col, isMap, brs, t)
    ensures NextLines(kids, brs) == brs && NextText(kids, brs, t) == t && Lead(brs, t)
    ensures AfterChild(brs, t, col, isMap) && AfterColl(brs, t, col, isMap)
  {
    hide Sound, Placed, Marked, Follows, KidRest, PrintKids, PrintBrs, Leads, Lead, Dashed;
  }

  lemma LeadsLead(brs: seq<Br>, t: string, col: nat)
    requires Leads(brs, col) && Shown(t)
    ensures Lead(brs, t)
  {
  }

  // ------------------------------------------------------------- one reading

  /** A value where it stands reads one way. */
  lemma {:induction false} NodeUnique(a: Node, ea: string, ba: seq<Br>, ta: string, b: Node, eb: string, bb: seq<Br>,
          tb: string, at: nat, col: nat)
    requires Settled(a, ea, ba, ta, at, col) && Settled(b, eb, bb, tb, at, col)
    requires PrintNode(a) + (ea + (PrintBrs(ba) + ta)) == PrintNode(b) + (eb + (PrintBrs(bb) + tb))
    ensures NodeValue(a) == NodeValue(b) && PrintBrs(ba) + ta == PrintBrs(bb) + tb
    decreases a, 2
  {
    hide Sound, PrintNode, Lead, Follows, AfterColl, KidRun, PrintKids, PrintBrs, KidRest, ReadScalar, NodeValue,
         Trailing, Broken, SameKids;
    SettledShown(a, ea, ba, ta, at, col);
    SettledShown(b, eb, bb, tb, at, col);
    var ra, rb := PrintBrs(ba) + ta, PrintBrs(bb) + tb;
    var s := PrintNode(a) + (ea + ra);
    assert s[0] == PrintNode(a)[0] == PrintNode(b)[0];
    if a.Literal? {
      assert "" + ra == ra && "" + rb == rb;
      LiteralUnique(a, ba, ta, b, bb, tb, col);
    } else if a.Coll? && a.flow {
      FlowSettled(a, ea, ra, b, eb, rb);
    } else if a.Scalar? && b.Scalar? {
      FlowSettled(a, ea, ra, b, eb, rb);
    } else if a.Scalar? {
      ScalarNoBlock(a, ea, ra, b, bb, tb);
    } else if b.Scalar? {
      ScalarNoBlock(b, eb, rb, a, ba, ta);
    } else {
      BlockParts(a, ba, ta);
      BlockParts(b, bb, tb);
      assert "" + ra == ra && "" + rb == rb;
      Regroup(KidRest(a.kids[0]), PrintKids(a.kids[1..]), PrintBrs(ba), ta);
      Regroup(KidRest(b.kids[0]), PrintKids(b.kids[1..]), PrintBrs(bb), tb);
      KidsUnique(a.kids, ba, ta, b.kids, bb, tb, at, a.isMap);
      SameValue(a, b);
    }
  }

  lemma Regroup(a: string, b: string, c: string, d: string)
    ensures (a + b) + (c + d) == a + b + c + d
  {
  }

  lemma FlowSettled(a: Node, ea: string, ra: string, b: Node, eb: string, rb: string)
    requires Sound(a) && Sound(b) && !IsBlockNode(a) && !IsBlockNode(b) && PrintNode(a) != "" && PrintNode(b) != ""
    requires Trailing(ea) && Trailing(eb) && Broken(ra) && Broken(rb)
    requires PrintNode(a) + (ea + ra) == PrintNode(b) + (eb + rb)
    ensures NodeValue(a) == NodeValue(b) && ra == rb
  {
    hide *;
    EndsAfter(ea, ra);
    EndsAfter(eb, rb);
    FlowUnique(a, ea + ra, b, eb + rb);
    TrailingRemark(ea);
    TrailingRemark(eb);
    LineUnique(ea, ra, eb, rb);
  }

  /** A scalar with its line's end is the start of no block collection. */
  lemma ScalarNoBlock(a: Node, ea: string, ra: string, b: Node, bb: seq<Br>, tb: string)
    requires a.Scalar? && Sound(a) && PrintNode(a) != "" && Trailing(ea) && Broken(ra)
    requires b.Coll? && !b.flow && Sound(b) && Follows(b, bb) && AfterColl(bb, tb, b.col, b.isMap)
    ensures PrintNode(a) + (ea + ra) != PrintNode(b) + (PrintBrs(bb) + tb)
  {
    hide Sound, Follows, AfterColl, PrintKids, Trailing, KidRest, ReadScalar, AfterChild, Next, KidRun, NextText,
         NextLines,
         Placed, Marked, Broken;
    BlockParts(b, bb, tb);
    ScalarParts(a);
    assert PrintNode(a) == a.src;
    RunStep(b.kids, b.col, b.isMap, bb, tb);
    var k, lines, text := b.kids[0], NextLines(b.kids, bb), NextText(b.kids, bb, tb);
    Regroup(KidRest(k), PrintKids(b.kids[1..]), PrintBrs(bb), tb);
    ScalarNoKid(a.src, ea, ra, k, b.col, b.isMap, lines, text);
  }

  lemma ScalarNoKid(src: string, tail: string, r: string, k: Kid, col: nat, isMap: bool, brs: seq<Br>, t: string)
    requires src != "" && ReadScalar(src).Some? && Trailing(tail) && Broken(r)
    requires Sound(k.node) && Placed(k, col) && Marked(k, isMap) && AfterChild(brs, t, col, isMap)
    ensures src + (tail + r) != KidRest(k) + (PrintBrs(brs) + t)
  {
    hide Sound, Trailing, KidRest, Placed, Broken, Lead, KeySound, PrintNode, PrintBrs;
    var x := PrintBrs(brs) + t;
    if isMap {
      MapKidText(k, x);
      ScalarNoKey(src, tail, r, k.mark, k.gap + PrintBrs(k.drop) + PrintNode(k.node) + k.tail + x);
    } else {
      LeadBroken(brs, t);
      DashSpaced(k, col, x);
      MarkShown(k, col, false);
      // A scalar that starts with a minus is a number.
      assert src[0] == '-' ==> |src + (tail + r)| >= 2 && IsDigit((src + (tail + r))[1]) by {
        hide ReadPlain, ReadQuoted;
        if src[0] != '\"' {
          PlainTokens(src);
        }
      }
      assert (src + (tail + r))[0] == src[0] && (KidRest(k) + x)[0] == KidRest(k)[0];
    }
  }

  lemma MapKidText(k: Kid, x: string)
    ensures KidRest(k) + x == MarkText(k.mark) + (k.gap + PrintBrs(k.drop) + PrintNode(k.node) + k.tail + x)
  {
    hide PrintNode, PrintBrs, MarkText;
  }

  predicate Empty(k: Kid) {
    k.node.Scalar? && k.node.src == ""
  }

  /** A child's text after its mark, and what follows. */
  function PastMark(k: Kid, r: string): string {
    k.gap + (PrintBrs(k.drop) + (PrintNode(k.node) + (k.tail + r)))
  }

  /** What an empty value leaves in view: nothing, or what follows the child. */
  predicate PastChild(seat: Option<Place>, col: nat, isMap: bool) {
    seat == None || (seat.value.col <= col && (isMap && seat.value.col == col ==> !Dashed(seat.value.text)))
  }

  /** Where a value stands: right of its mark, or a list in the column of its key. */
  lemma ChildSeat(k: Kid, brs: seq<Br>, t: string, col: nat, isMap: bool)
    requires Sound(k.node) && Placed(k, col) && Marked(k, isMap) && !Empty(k)
    requires AfterChild(brs, t, col, isMap) && Follows(k.node, brs)
    ensures var r, at := PrintBrs(brs) + t, StartCol(k, col);
            var x := PrintNode(k.node) + (k.tail + r);
            && Settled(k.node, k.tail, brs, t, at, col)
            && Seat(PastMark(k, r), col + |MarkText(k.mark)|) == Some(Place(at, x))
            && (at > col || (at == col && isMap && Dashed(x)))
  {
    hide Sound, PrintNode, Lead, Follows, Seat, Remark, Leads, LastLiteral, Settled, AfterChild, Marked, Trailing;
    var r, at := PrintBrs(brs) + t, StartCol(k, col);
    var x := PrintNode(k.node) + (k.tail + r);
    ChildText(k, col);
    ChildSettled(k, brs, t, col, isMap);
    SettledShown(k.node, k.tail, brs, t, at, col);
    assert x[0] == PrintNode(k.node)[0];
    if k.drop == [] {
      assert PrintBrs(k.drop) + x == x;
      SeatInline(k.gap, x, col + |MarkText(k.mark)|);
    } else {
      TrailingRemark(k.gap);
      LeadsLead(k.drop, x, at);
      SeatLater(k.gap, k.drop, x, col + |MarkText(k.mark)|);
      LeadsLast(k.drop, at);
    }
  }

  lemma LeadsLast(brs: seq<Br>, col: nat)
    requires Leads(brs, col)
    ensures brs[|brs| - 1].pad == col
  {
  }

  lemma EmptySeat(k: Kid, brs: seq<Br>, t: string, col: nat, isMap: bool)
    requires Empty(k) && Placed(k, col) && AfterChild(brs, t, col, isMap)
    ensures Trailing(k.tail) && PastMark(k, PrintBrs(brs) + t) == k.tail + (PrintBrs(brs) + t)
    ensures PastChild(Seat(PastMark(k, PrintBrs(brs) + t), col + |MarkText(k.mark)|), col, isMap)
  {
    hide Remark, Lead, Seat, Leads, Trailing, OneLine;
    var r := PrintBrs(brs) + t;
    assert k.gap == "" && k.drop == [] && PrintBrs(k.drop) == "" && PrintNode(k.node) == "";
    assert PastMark(k, r) == k.tail + r;
    TrailingRemark(k.tail);
    SeatLater(k.tail, brs, t, col + |MarkText(k.mark)|);
  }

  lemma ChildText(k: Kid, col: nat)
    requires Sound(k.node) && Placed(k, col) && !Empty(k)
    ensures PrintNode(k.node) != ""
  {
    hide NodeOk, Spelled, KeySpelled, KeyOk, Placed, FlowShape;
    if k.node.Coll? && !k.node.flow {
      CollParts(k.node);
      SpelledKids(k.node);
      var n := k.node;
      FirstKidText(n);
      assert BlockKidOk(n.kids[0], n.col, true, n.isMap);
      MarkShown(n.kids[0], n.col, n.isMap);
    }
  }

  lemma ChildSettled(k: Kid, brs: seq<Br>, t: string, col: nat, isMap: bool)
    requires Sound(k.node) && Placed(k, col) && Marked(k, isMap) && !Empty(k) && PrintNode(k.node) != ""
    requires AfterChild(brs, t, col, isMap) && Follows(k.node, brs)
    ensures Settled(k.node, k.tail, brs, t, StartCol(k, col), col)
    ensures StartCol(k, col) > col
            || (StartCol(k, col) == col && isMap && k.node.Coll? && !k.node.flow && !k.node.isMap)
  {
    hide Sound, PrintNode, Lead, Follows, Trailing, Leads, KeySound, MarkText;
    MarkShown(k, col, isMap);
  }

  /** A child reads one way: its name, its value, and where the lines after it begin. */
  lemma {:induction false} KidUnique(a: Kid, ba: seq<Br>, ta: string, b: Kid, bb: seq<Br>, tb: string, col: nat,
          isMap: bool)
    requires Sound(a.node) && Placed(a, col) && Marked(a, isMap) && AfterChild(ba, ta, col, isMap)
             && Follows(a.node, ba)
    requires Sound(b.node) && Placed(b, col) && Marked(b, isMap) && AfterChild(bb, tb, col, isMap)
             && Follows(b.node, bb)
    requires KidRest(a) + (PrintBrs(ba) + ta) == KidRest(b) + (PrintBrs(bb) + tb)
    ensures KidName(a) == KidName(b) && NodeValue(a.node) == NodeValue(b.node)
    ensures PrintBrs(ba) + ta == PrintBrs(bb) + tb
    decreases a, 0
  {
    hide Sound, Placed, AfterChild, Follows, PrintNode, NodeValue, Seat, KeySound, Trailing, Settled, PastMark,
         KidRest, PrintBrs, StartCol;
    var ra, rb := PrintBrs(ba) + ta, PrintBrs(bb) + tb;
    var xa, xb := PastMark(a, ra), PastMark(b, rb);
    KidText(a, ra);
    KidText(b, rb);
    MarkUnique(a, xa, b, xb, isMap);
    var base := col + |MarkText(a.mark)|;
    if Empty(a) {
      EmptySeat(a, ba, ta, col, isMap);
      if !Empty(b) {
        ChildSeat(b, bb, tb, col, isMap);
      } else {
        EmptySeat(b, bb, tb, col, isMap);
        BothEmpty(a, ba, ta, b, bb, tb, col, isMap);
      }
    } else {
      ChildSeat(a, ba, ta, col, isMap);
      if Empty(b) {
        EmptySeat(b, bb, tb, col, isMap);
      } else {
        ChildSeat(b, bb, tb, col, isMap);
        NodeUnique(a.node, a.tail, ba, ta, b.node, b.tail, bb, tb, StartCol(a, col), col);
      }
    }
  }

  lemma MarkUnique(a: Kid, xa: string, b: Kid, xb: string, isMap: bool)
    requires Marked(a, isMap) && Marked(b, isMap) && MarkText(a.mark) + xa == MarkText(b.mark) + xb
    ensures KidName(a) == KidName(b) && xa == xb && |MarkText(a.mark)| == |MarkText(b.mark)|
  {
    hide KeySound;
    var s := MarkText(a.mark) + xa;
    if isMap {
      KeyUnique(a.mark, xa, b.mark, xb);
    } else {
      assert s[1..] == xa == xb;
    }
    assert |s| == |MarkText(a.mark)| + |xa| && |s| == |MarkText(b.mark)| + |xb|;
  }

  lemma KidText(k: Kid, r: string)
    ensures KidRest(k) + r == MarkText(k.mark) + PastMark(k, r)
  {
    hide PrintNode, PrintBrs, MarkText;
  }

  lemma BothEmpty(a: Kid, ba: seq<Br>, ta: string, b: Kid, bb: seq<Br>, tb: string, col: nat, isMap: bool)
    requires Empty(a) && Sound(a.node) && Placed(a, col) && AfterChild(ba, ta, col, isMap)
    requires Empty(b) && Sound(b.node) && Placed(b, col) && AfterChild(bb, tb, col, isMap)
    requires PastMark(a, PrintBrs(ba) + ta) == PastMark(b, PrintBrs(bb) + tb)
    ensures NodeValue(a.node) == NodeValue(b.node) && PrintBrs(ba) + ta == PrintBrs(bb) + tb
  {
    hide Lead, Sound, Placed, Remark, Trailing, Seat, PastMark, NodeValue;
    EmptySeat(a, ba, ta, col, isMap);
    EmptySeat(b, bb, tb, col, isMap);
    EmptyValue(a.node);
    EmptyValue(b.node);
    LeadBroken(ba, ta);
    LeadBroken(bb, tb);
    TrailingRemark(a.tail);
    TrailingRemark(b.tail);
    LineUnique(a.tail, PrintBrs(ba) + ta, b.tail, PrintBrs(bb) + tb);
  }

  /** So do the children of a block collection, however many there are. */
  lemma {:induction false} KidsUnique(a: seq<Kid>, ba: seq<Br>, ta: string, b: seq<Kid>, bb: seq<Br>, tb: string,
          col: nat, isMap: bool)
    requires a != [] && b != [] && KidRun(a, col, isMap, ba, ta) && KidRun(b, col, isMap, bb, tb)
    requires KidRest(a[0]) + PrintKids(a[1..]) + PrintBrs(ba) + ta
             == KidRest(b[0]) + PrintKids(b[1..]) + PrintBrs(bb) + tb
    ensures SameKids(a, b) && PrintBrs(ba) + ta == PrintBrs(bb) + tb
    decreases a, 1
  {
    hide KidRun, Sound, Placed, Marked, AfterChild, Follows, KidRest, PrintKids, NodeValue, KidName, Next;
    RunStep(a, col, isMap, ba, ta);
    RunStep(b, col, isMap, bb, tb);
    KidUnique(a[0], NextLines(a, ba), NextText(a, ba, ta), b[0], NextLines(b, bb), NextText(b, bb, tb), col, isMap);
    if |a| > 1 {
      assert |b| > 1;
      assert a[1..][1..] == a[2..] && b[1..][1..] == b[2..];
      KidsUnique(a[1..], ba, ta, b[1..], bb, tb, col, isMap);
      SameKidsMore(a, b);
    } else {
      assert |b| == 1;
      assert SameKids(a[1..], b[1..]) by { assert a[1..] == [] && b[1..] == []; }
      SameKidsMore(a, b);
    }
  }

  // ---------------------------------------------------------------- documents

  /** Two well-formed documents with the same text have the same value. */
  lemma DocUnique(a: Doc, b: Doc)
    requires DocOk(a) && DocOk(b) && PrintDoc(a) == PrintDoc(b)
    ensures DocValue(a) == DocValue(b)
  {
    hide Sound, PrintNode, NodeValue, Seat, Settled, RootOk, DocOk, PrintDoc, PrintBrs, StartCol;
    RootSeat(a);
    RootSeat(b);
    NodeUnique(a.root.node, a.root.tail, a.end, "", b.root.node, b.root.tail, b.end, "", StartCol(a.root, 0), 0);
  }

  lemma RootSeat(d: Doc)
    requires DocOk(d)
    ensures var k, at := d.root, StartCol(d.root, 0);
            && Settled(k.node, k.tail, d.end, "", at, 0)
            && Seat(PrintDoc(d), 0) == Some(Place(at, PrintNode(k.node) + (k.tail + (PrintBrs(d.end) + ""))))
  {
    hide Sound, PrintNode, Seat, Leads, Remark, Follows, PrintBrs;
    var k := d.root;
    var at := StartCol(k, 0);
    var x := PrintNode(k.node) + (k.tail + (PrintBrs(d.end) + ""));
    assert Settled(k.node, k.tail, d.end, "", at, 0);
    SettledShown(k.node, k.tail, d.end, "", at, 0);
    RootText(d);
    if k.drop == [] {
      assert PrintBrs(k.drop) + x == x;
      SeatInline(k.gap, x, 0);
    } else {
      LeadsLead(k.drop, x, at);
      SeatLater(k.gap, k.drop, x, 0);
    }
  }

  lemma RootText(d: Doc)
    requires RootOk(d.root)
    ensures var k := d.root;
            PrintDoc(d) == k.gap + (PrintBrs(k.drop) + (PrintNode(k.node) + (k.tail + (PrintBrs(d.end) + ""))))
  {
    hide PrintNode, Leads, Remark;
    assert PrintBrs([]) == "";
  }
}
