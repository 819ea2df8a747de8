/**
 The text of a Word document (core/tstd/attachment_office.py): one pass over the events of
 its XML with three stacks, into a capped sink (core/tstd/attachment_text.py).
 */
module Docx {
  import opened Text

  // -------------------------------------------------------------- the sink

  /** Bytes of one character in UTF-8. */
  function Utf8Length(c: char): nat {
    var n := c as int;
    if n < 0x80 then 1 else if n < 0x800 then 2 else if n < 0x10000 then 3 else 4
  }

  function Utf8Size(s: string): nat {
    if s == "" then 0 else Utf8Size(s[..|s| - 1]) + Utf8Length(s[|s| - 1])
  }

  lemma {:induction false} Utf8Concat(a: string, b: string)
    ensures Utf8Size(a + b) == Utf8Size(a) + Utf8Size(b)
    decreases |b|
  {
    if b == "" {
      assert a + b == a;
    } else {
      assert (a + b)[..|a + b| - 1] == a + b[..|b| - 1];
      Utf8Concat(a, b[..|b| - 1]);
    }
  }

  /** The size of the lines joined by line breaks. */
  function TextSize(lines: seq<string>): nat {
    Utf8Size(Join(lines, "\n"))
  }

  lemma TextSizeMore(lines: seq<string>, line: string)
    ensures TextSize(lines + [line]) == TextSize(lines) + (if lines == [] then 0 else 1) + Utf8Size(line)
  {
    assert [line][1..] == [];
    if lines == [] {
      assert lines + [line] == [line];
    } else {
      JoinConcat(lines, [line], "\n");
      Utf8Concat(Join(lines, "\n") + "\n", line);
      Utf8Concat(Join(lines, "\n"), "\n");
      assert "\n"[..0] == "";
      assert Utf8Size("\n") == 1;
    }
  }

  lemma {:induction false} TextSizeGrows(a: seq<string>, b: seq<string>)
    ensures TextSize(a) <= TextSize(a + b)
    decreases |b|
  {
    hide TextSize;
    if b == [] {
      assert a + b == a;
    } else {
      TextSizeMore(a + b[..|b| - 1], b[|b| - 1]);
      assert a + b == (a + b[..|b| - 1]) + [b[|b| - 1]];
      TextSizeGrows(a, b[..|b| - 1]);
    }
  }

  /** Collects lines and stops the moment their UTF-8 size passes the cap. */
  class Sink {
    const cap: nat
    var size: nat
    var parts: seq<string>
    var hasContent: bool

    /** The counter is the size of the text, within the cap. */
    predicate Valid()
      reads this
    {
      size == TextSize(parts) <= cap
    }

    constructor (cap: nat)
      ensures Valid() && parts == [] && !hasContent && this.cap == cap
    {
      this.cap, size, parts, hasContent := cap, 0, [], false;
    }

    /** False where the source raises `TooLong`: the line is not added, and the counter is spent. */
    method Add(line: string, marker: bool) returns (ok: bool)
      requires Valid()
      modifies this
      ensures ok <==> TextSize(old(parts) + [line]) <= cap
      ensures ok ==>
                Valid() && parts == old(parts) + [line]
                && hasContent == (old(hasContent) || (!marker && Stripped(line) != ""))
      ensures !ok ==> parts == old(parts) && hasContent == old(hasContent) && size > cap
    {
      TextSizeMore(parts, line);
      if parts != [] {
        size := size + 1;
      }
      size := size + Utf8Size(line);
      if size > cap {
        return false;
      }
      parts := parts + [line];
      if !marker && Stripped(line) != "" {
        hasContent := true;
      }
      ok := true;
    }

    method TextOf() returns (text: string)
      ensures text == Join(parts, "\n")
    {
      text := Join(parts, "\n");
    }
  }

  // -------------------------------------------------------------- the events

  /** An element by its local tag, with its text; an element's end comes after its children. */
  datatype Element = Element(tag: string, text: string, children: seq<Element>)

  datatype Event = Start(tag: string) | End(tag: string, text: string)

  function Events(e: Element): (events: seq<Event>)
    ensures |events| >= 2
    decreases e, 1
  {
    [Start(e.tag)] + EventsOf(e.children) + [End(e.tag, e.text)]
  }

  function EventsOf(children: seq<Element>): seq<Event>
    decreases children, 0
  {
    if children == [] then [] else Events(children[0]) + EventsOf(children[1..])
  }

  /** Where the loop stands: inside how many bodies, the open paragraphs, rows and cells, and the lines so far. */
  datatype State = State(depth: int, paragraphs: seq<seq<string>>, rows: seq<seq<string>>, cells: seq<seq<string>>,
          lines: seq<string>)

  /** `stack[-1].append(item)`. */
  function Onto(stack: seq<seq<string>>, item: string): seq<seq<string>>
    requires stack != []
  {
    stack[|stack| - 1 := stack[|stack| - 1] + [item]]
  }

  function Popped(stack: seq<seq<string>>): seq<seq<string>>
    requires stack != []
  {
    stack[..|stack| - 1]
  }

  function Top(stack: seq<seq<string>>): seq<string>
    requires stack != []
  {
    stack[|stack| - 1]
  }

  /** What an element's end adds to the innermost open paragraph. */
  function Inked(tag: string, text: string): seq<string> {
    if tag == "t" then (if text == "" then [] else [text])
    else if tag == "tab" then ["\t"]
    else if tag == "br" || tag == "cr" then ["\n"]
    else []
  }

  function Opened(s: State, tag: string): State {
    if tag == "body" then s.(depth := s.depth + 1)
    else if s.depth == 0 then s
    else if tag == "p" then s.(paragraphs := s.paragraphs + [[]])
    else if tag == "tr" then s.(rows := s.rows + [[]])
    else if tag == "tc" then s.(cells := s.cells + [[]])
    else s
  }

  function Closed(s: State, tag: string, text: string): State {
    var d := if tag == "body" then s.(depth := s.depth - 1) else s;
    if d.depth == 0 then d
    else
      var i := if d.paragraphs != [] && Inked(tag, text) != []
        then d.(paragraphs := Onto(d.paragraphs, Inked(tag, text)[0])) else d;
      if tag == "p" && i.paragraphs != [] then
        var words := Join(Top(i.paragraphs), "");
        var p := i.(paragraphs := Popped(i.paragraphs));
        if p.cells != [] then p.(cells := Onto(p.cells, words)) else p.(lines := p.lines + [words])
      else if tag == "tc" && i.cells != [] then
        var words := Stripped(Join(Top(i.cells), " "));
        var c := i.(cells := Popped(i.cells));
        if c.rows != [] then c.(rows := Onto(c.rows, words)) else c
      else if tag == "tr" && i.rows != [] then i.(rows := Popped(i.rows), lines := i.lines + [Join(Top(i.rows), "\t")])
      else i
  }

  function Take(s: State, e: Event): State {
    match e
    case Start(tag) => Opened(s, tag)
    case End(tag, text) => Closed(s, tag, text)
  }

  function Run(s: State, events: seq<Event>): State
    decreases |events|
  {
    if events == [] then s else Take(Run(s, events[..|events| - 1]), events[|events| - 1])
  }

  // -------------------------------------------------------- the recursive walk

  /** What part of a document gives: to the paragraph, cell and row around it, and as lines of its own. */
  datatype Yield = Yield(words: seq<string>, cell: seq<string>, row: seq<string>, lines: seq<string>)

  /** What is open around an element. */
  datatype Around = Around(body: bool, paragraph: bool, cell: bool, row: bool)

  function Both(a: Yield, b: Yield): Yield {
    Yield(a.words + b.words, a.cell + b.cell, a.row + b.row, a.lines + b.lines)
  }

  const NOTHING := Yield([], [], [], [])

  /**
   The plain meaning: a paragraph is the words inside it but not inside another paragraph, given
   to its cell or to the text; a cell joins its paragraphs by spaces, a row its cells by tabs.
   */
  function Walk(e: Element, a: Around): Yield
    decreases e, 1
  {
    if e.tag == "body" then WalkAll(e.children, a.(body := true))
    else if !a.body then WalkAll(e.children, a)
    else if e.tag == "p" then
      var y := WalkAll(e.children, a.(paragraph := true));
      var words := Join(y.words, "");
      y.(words := [], cell := y.cell + (if a.cell then [words] else []),
         lines := y.lines + if a.cell then [] else [words])
    else if e.tag == "tc" then
      var y := WalkAll(e.children, a.(cell := true));
      y.(cell := [], row := y.row + if a.row then [Stripped(Join(y.cell, " "))] else [])
    else if e.tag == "tr" then
      var y := WalkAll(e.children, a.(row := true));
      y.(row := [], lines := y.lines + [Join(y.row, "\t")])
    else
      var y := WalkAll(e.children, a);
      y.(words := y.words + if a.paragraph then Inked(e.tag, e.text) else [])
  }

  function WalkAll(children: seq<Element>, a: Around): Yield
    decreases children, 0
  {
    if children == [] then NOTHING else Both(Walk(children[0], a), WalkAll(children[1..], a))
  }

  /** The lines of a whole document. */
  function DocumentLines(root: Element): seq<string> {
    Walk(root, Around(false, false, false, false)).lines
  }

  // ------------------------------------------------------------- the theorem

  function AroundOf(s: State): Around {
    Around(s.depth != 0, s.paragraphs != [], s.cells != [], s.rows != [])
  }

  function Grown(stack: seq<seq<string>>, items: seq<string>): seq<seq<string>> {
    if stack == [] then [] else stack[|stack| - 1 := stack[|stack| - 1] + items]
  }

  /** The state after a part that gives `y`: every stack as deep as before. */
  function Given(s: State, y: Yield): State {
    State(s.depth, Grown(s.paragraphs, y.words), Grown(s.rows, y.row), Grown(s.cells, y.cell), s.lines + y.lines)
  }

  /** Outside every body nothing is open. */
  predicate Sane(s: State) {
    s.depth >= 0 && (s.depth == 0 ==> s.paragraphs == [] && s.rows == [] && s.cells == [])
  }

  lemma {:induction false} RunConcat(s: State, a: seq<Event>, b: seq<Event>)
    ensures Run(s, a + b) == Run(Run(s, a), b)
    decreases |b|
  {
    hide Take;
    if b == [] {
      assert a + b == a;
    } else {
      assert (a + b)[..|a + b| - 1] == a + b[..|b| - 1];
      RunConcat(s, a, b[..|b| - 1]);
    }
  }

  lemma RunOne(s: State, e: Event)
    ensures Run(s, [e]) == Take(s, e)
  {
    hide Take;
    assert [e][..0] == [];
  }

  lemma GrownTwice(stack: seq<seq<string>>, a: seq<string>, b: seq<string>)
    ensures Grown(Grown(stack, a), b) == Grown(stack, a + b) && |Grown(stack, a)| == |stack|
    ensures Grown(stack, []) == stack
  {
    if stack != [] {
      var top := stack[|stack| - 1];
      assert (top + a) + b == top + (a + b);
      assert top + [] == top;
    }
  }

  lemma GivenTwice(s: State, x: Yield, y: Yield)
    ensures Given(Given(s, x), y) == Given(s, Both(x, y))
    ensures AroundOf(Given(s, x)) == AroundOf(s) && (Sane(s) ==> Sane(Given(s, x)))
    ensures Given(s, NOTHING) == s
  {
    hide Grown;
    GrownTwice(s.paragraphs, x.words, y.words);
    GrownTwice(s.rows, x.row, y.row);
    GrownTwice(s.cells, x.cell, y.cell);
    assert (s.lines + x.lines) + y.lines == s.lines + (x.lines + y.lines);
    assert s.lines + [] == s.lines;
  }

  /**
   The events of a whole element do to the state what its walk gives, and leave every stack as deep as
   they found it.
   */
  lemma {:induction false} LoopIsWalk(e: Element, s: State)
    requires Sane(s)
    ensures Run(s, Events(e)) == Given(s, Walk(e, AroundOf(s)))
    decreases e, 1
  {
    hide Take, Walk, Run, Given, Closed;
    var inner := Opened(s, e.tag);
    RunConcat(s, [Start(e.tag)] + EventsOf(e.children), [End(e.tag, e.text)]);
    RunConcat(s, [Start(e.tag)], EventsOf(e.children));
    RunOne(s, Start(e.tag));
    assert Take(s, Start(e.tag)) == inner by { TakeIs(s, Start(e.tag)); }
    LoopIsWalkAll(e.children, inner);
    var y := WalkAll(e.children, AroundOf(inner));
    RunOne(Given(inner, y), End(e.tag, e.text));
    TakeIs(Given(inner, y), End(e.tag, e.text));
    OpenThenClose(s, e, y);
  }

  lemma TakeIs(s: State, e: Event)
    ensures Take(s, e) == if e.Start? then Opened(s, e.tag) else Closed(s, e.tag, e.text)
  {
  }

  lemma {:induction false} LoopIsWalkAll(children: seq<Element>, s: State)
    requires Sane(s)
    ensures Run(s, EventsOf(children)) == Given(s, WalkAll(children, AroundOf(s)))
    decreases children, 0
  {
    hide Walk, Run, Given, AroundOf, Sane, Events;
    if children == [] {
      GivenTwice(s, NOTHING, NOTHING);
      RunNone(s);
    } else {
      var x := Walk(children[0], AroundOf(s));
      RunConcat(s, Events(children[0]), EventsOf(children[1..]));
      LoopIsWalk(children[0], s);
      GivenTwice(s, x, WalkAll(children[1..], AroundOf(s)));
      LoopIsWalkAll(children[1..], Given(s, x));
    }
  }

  lemma RunNone(s: State)
    ensures Run(s, []) == s
  {
  }

  /** One element's own start and end, around what its children gave. */
  lemma OpenThenClose(s: State, e: Element, y: Yield)
    requires Sane(s) && y == WalkAll(e.children, AroundOf(Opened(s, e.tag)))
    ensures Sane(Opened(s, e.tag))
    ensures Closed(Given(Opened(s, e.tag), y), e.tag, e.text) == Given(s, Walk(e, AroundOf(s)))
  {
    hide WalkAll;
    if e.tag == "body" {
      assert Closed(Given(Opened(s, e.tag), y), e.tag, e.text) == Given(s, Walk(e, AroundOf(s))) by {
        hide WalkAll;
      }
    } else if s.depth == 0 {
    } else if e.tag == "p" {
      ParagraphCloses(s, e, y);
    } else if e.tag == "tc" {
      CellCloses(s, e, y);
    } else if e.tag == "tr" {
      RowCloses(s, e, y);
    } else {
      OtherCloses(s, e, y);
    }
  }

  lemma RowCloses(s: State, e: Element, y: Yield)
    requires Sane(s) && s.depth != 0 && e.tag == "tr" && y == WalkAll(e.children, AroundOf(Opened(s, e.tag)))
    ensures Closed(Given(Opened(s, e.tag), y), e.tag, e.text) == Given(s, Walk(e, AroundOf(s)))
  {
    hide WalkAll, Grown, Join;
    PushGrown(s.rows, y.row);
    GrownTwice(s.rows, [], []);
    assert (s.lines + y.lines) + [Join(y.row, "\t")] == s.lines + (y.lines + [Join(y.row, "\t")]);
  }

  lemma PushGrown(stack: seq<seq<string>>, items: seq<string>)
    ensures var g := Grown(stack + [[]], items);
            g != [] && Top(g) == items && Popped(g) == stack
  {
    var none: seq<string> := [];
    assert none + items == items;
  }

  lemma OntoGrown(stack: seq<seq<string>>, items: seq<string>, item: string)
    requires stack != []
    ensures Onto(Grown(stack, items), item) == Grown(stack, items + [item])
  {
    assert (stack[|stack| - 1] + items) + [item] == stack[|stack| - 1] + (items + [item]);
  }

  lemma ParagraphCloses(s: State, e: Element, y: Yield)
    requires Sane(s) && s.depth != 0 && e.tag == "p" && y == WalkAll(e.children, AroundOf(Opened(s, e.tag)))
    ensures Closed(Given(Opened(s, e.tag), y), e.tag, e.text) == Given(s, Walk(e, AroundOf(s)))
  {
    hide WalkAll, Grown, Join;
    PushGrown(s.paragraphs, y.words);
    var words := Join(y.words, "");
    GrownTwice(s.paragraphs, [], []);
    assert y.cell + [] == y.cell && y.lines + [] == y.lines;
    assert (s.lines + y.lines) + [words] == s.lines + (y.lines + [words]);
    GrownTwice(s.cells, y.cell, []);
    if s.cells != [] {
      OntoGrown(s.cells, y.cell, words);
    }
  }

  lemma CellCloses(s: State, e: Element, y: Yield)
    requires Sane(s) && s.depth != 0 && e.tag == "tc" && y == WalkAll(e.children, AroundOf(Opened(s, e.tag)))
    ensures Closed(Given(Opened(s, e.tag), y), e.tag, e.text) == Given(s, Walk(e, AroundOf(s)))
  {
    hide WalkAll, Grown, Join, Stripped;
    PushGrown(s.cells, y.cell);
    var words := Stripped(Join(y.cell, " "));
    GrownTwice(s.cells, [], []);
    assert y.row + [] == y.row;
    GrownTwice(s.rows, y.row, []);
    if s.rows != [] {
      OntoGrown(s.rows, y.row, words);
    }
  }

  lemma OtherCloses(s: State, e: Element, y: Yield)
    requires Sane(s) && s.depth != 0 && e.tag !in {"body", "p", "tc", "tr"}
             && y == WalkAll(e.children, AroundOf(Opened(s, e.tag)))
    ensures Closed(Given(Opened(s, e.tag), y), e.tag, e.text) == Given(s, Walk(e, AroundOf(s)))
  {
    hide WalkAll, Grown;
    GrownTwice(s.paragraphs, y.words, []);
    var ink := Inked(e.tag, e.text);
    assert y.words + [] == y.words;
    if s.paragraphs != [] && ink != [] {
      OntoGrown(s.paragraphs, y.words, ink[0]);
      assert ink == [ink[0]];
    }
  }

  /** On every document the loop's lines are those of the recursive walk. */
  lemma DocumentRuns(root: Element)
    ensures Run(State(0, [], [], [], []), Events(root)) == State(0, [], [], [], DocumentLines(root))
  {
    hide Walk, Run, Events;
    LoopIsWalk(root, State(0, [], [], [], []));
    var y := Walk(root, Around(false, false, false, false));
    var none: seq<string> := [];
    assert none + y.lines == y.lines;
  }

  // ------------------------------------------------------------ the streamed pass

  /** How a document's reading ended. */
  datatype Reading = Done | TooLong | TooLarge

  function Ends(events: seq<Event>): nat {
    if events == [] then 0 else Ends(events[..|events| - 1]) + if events[|events| - 1].End? then 1 else 0
  }

  /** Each event adds at most one line, after those before it. */
  lemma TakeAddsOne(s: State, e: Event)
    ensures Take(s, e).lines == s.lines || (e.End? && exists line :: Take(s, e).lines == s.lines + [line])
  {
    hide Join, Stripped;
    if e.End? && Take(s, e).lines != s.lines {
      assert Take(s, e).lines == s.lines + [Take(s, e).lines[|s.lines|]];
    }
  }

  lemma {:induction false} RunGrows(s: State, events: seq<Event>, i: nat)
    requires i <= |events|
    ensures var a, b := Run(s, events[..i]).lines, Run(s, events).lines;
            |a| <= |b| && b[..|a|] == a && Ends(events[..i]) <= Ends(events)
    decreases |events| - i
  {
    hide Take;
    if i < |events| {
      RunGrows(s, events, i + 1);
      assert events[..i + 1][..i] == events[..i];
      TakeAddsOne(Run(s, events[..i]), events[i]);
    } else {
      assert events[..i] == events;
    }
  }

  /**
   `read_docx` over the events: the lines of the loop into the sink, within a budget of elements.
   It finishes exactly when the document has no more elements than that and its text fits the
   sink; otherwise the sink holds the lines before the one that did not.
   */
  method ReadEvents(events: seq<Event>, sink: Sink, elements: nat) returns (r: Reading)
    requires sink.Valid()
    modifies sink
    ensures var lines := Run(State(0, [], [], [], []), events).lines;
            && (r == Done <==> Ends(events) <= elements && TextSize(old(sink.parts) + lines) <= sink.cap)
            && (r == Done ==> sink.Valid() && sink.parts == old(sink.parts) + lines)
            && exists k: nat | k <= |lines| ::
                 && sink.parts == old(sink.parts) + lines[..k]
                 && (r == TooLong ==> k < |lines| && TextSize(old(sink.parts) + lines[..k + 1]) > sink.cap)
  {
    hide Run, Join, Stripped, TextSize, Inked;
    var start := State(0, [], [], [], []);
    ghost var all := Run(start, events).lines;
    ghost var was := sink.parts;
    var depth := 0;
    var paragraphs: seq<seq<string>>, rows: seq<seq<string>>, cells: seq<seq<string>> := [], [], [];
    var left: int := elements;
    ghost var lines: seq<string> := [];
    RunNone(start);
    NoEvents(events);
    assert was + [] == was;
    for i := 0 to |events|
      invariant sink.Valid() && sink.parts == was + lines
      invariant State(depth, paragraphs, rows, cells, lines) == Run(start, events[..i])
      invariant left == elements - Ends(events[..i]) >= 0
    {
      var e := events[i];
      ghost var before := State(depth, paragraphs, rows, cells, lines);
      RunStep(start, events, i);
      RunGrows(start, events, i + 1);
      RunGrows(start, events, i);
      if e.Start? {
        if e.tag == "body" {
          depth := depth + 1;
        } else if depth != 0 {
          if e.tag == "p" {
            paragraphs := paragraphs + [[]];
          } else if e.tag == "tr" {
            rows := rows + [[]];
          } else if e.tag == "tc" {
            cells := cells + [[]];
          }
        }
        continue;
      }
      left := left - 1;
      if left < 0 {
        Partly(was, all, lines);
        return TooLarge;
      }
      if e.tag == "body" {
        depth := depth - 1;
      }
      if depth == 0 {
        continue;
      }
      var line: Option<string>;
      depth, paragraphs, rows, cells, line := CloseElement(depth, paragraphs, rows, cells, e.tag, e.text, before);
      if line.Some? {
        var ok := sink.Add(line.value, false);
        if !ok {
          OverCap(was, all, lines, line.value, sink.cap);
          return TooLong;
        }
        assert (was + lines) + [line.value] == was + (lines + [line.value]);
        lines := lines + [line.value];
      } else {
        assert lines + [] == lines;
      }
    }
    assert events[..|events|] == events;
    Partly(was, all, lines);
    r := Done;
  }

  /** The end of an element inside a body, on the loop's own stacks: they change, and perhaps a line is ready. */
  method CloseElement(depth: int, paragraphs: seq<seq<string>>, rows: seq<seq<string>>, cells: seq<seq<string>>,
          tag: string, text: string, ghost before: State)
    returns (depth': int, paragraphs': seq<seq<string>>, rows': seq<seq<string>>, cells': seq<seq<string>>,
      line: Option<string>)
    requires depth != 0
    requires before == State(if tag == "body" then depth + 1 else depth, paragraphs, rows, cells, before.lines)
    ensures State(depth', paragraphs', rows', cells', before.lines + if line.Some? then [line.value] else [])
            == Closed(before, tag, text)
  {
    hide Join, Stripped;
    depth', paragraphs', rows', cells', line := depth, paragraphs, rows, cells, None;
    assert before.lines + [] == before.lines;
    if paragraphs' != [] {
      if tag == "t" && text != "" {
        paragraphs' := Onto(paragraphs', text);
      } else if tag == "tab" {
        paragraphs' := Onto(paragraphs', "\t");
      } else if tag == "br" || tag == "cr" {
        paragraphs' := Onto(paragraphs', "\n");
      }
    }
    if tag == "p" && paragraphs' != [] {
      var words := Join(Top(paragraphs'), "");
      paragraphs' := Popped(paragraphs');
      if cells' != [] {
        cells' := Onto(cells', words);
      } else {
        line := Some(words);
      }
    } else if tag == "tc" && cells' != [] {
      var words := Stripped(Join(Top(cells'), " "));
      cells' := Popped(cells');
      if rows' != [] {
        rows' := Onto(rows', words);
      }
    } else if tag == "tr" && rows' != [] {
      line := Some(Join(Top(rows'), "\t"));
      rows' := Popped(rows');
    }
  }

  lemma NoEvents(events: seq<Event>)
    ensures events[..0] == [] && Ends(events[..0]) == 0
  {
  }

  lemma RunStep(s: State, events: seq<Event>, i: nat)
    requires i < |events|
    ensures Run(s, events[..i + 1]) == Take(Run(s, events[..i]), events[i])
    ensures Ends(events[..i + 1]) == Ends(events[..i]) + if events[i].End? then 1 else 0
  {
    hide Take;
    assert events[..i + 1][..i] == events[..i];
  }

  lemma Partly(was: seq<string>, all: seq<string>, lines: seq<string>)
    requires |lines| <= |all| && all[..|lines|] == lines
    ensures was + lines == was + all[..|lines|]
    ensures TextSize(was + all) >= TextSize(was + lines)
  {
    hide TextSize;
    assert was + all == (was + lines) + all[|lines|..];
    TextSizeGrows(was + lines, all[|lines|..]);
  }

  lemma OverCap(was: seq<string>, all: seq<string>, lines: seq<string>, line: string, cap: nat)
    requires |lines| < |all| && all[..|lines|] == lines && all[..|lines| + 1] == lines + [line]
    requires TextSize((was + lines) + [line]) > cap
    ensures TextSize(was + all) > cap && was + lines == was + all[..|lines|] && TextSize(was + all[..|lines| + 1]) > cap
  {
    hide TextSize;
    assert (was + lines) + [line] == was + all[..|lines| + 1];
    assert was + all == (was + all[..|lines| + 1]) + all[|lines| + 1..];
    TextSizeGrows(was + all[..|lines| + 1], all[|lines| + 1..]);
  }

  /** `read_docx` on a document: exactly the lines of its recursive walk, where they fit. */
  method ReadDocument(root: Element, sink: Sink, elements: nat) returns (r: Reading)
    requires sink.Valid()
    modifies sink
    ensures r == Done <==> Ends(Events(root)) <= elements && TextSize(old(sink.parts) + DocumentLines(root)) <= sink.cap
    ensures r == Done ==> sink.Valid() && sink.parts == old(sink.parts) + DocumentLines(root)
  {
    DocumentRuns(root);
    r := ReadEvents(Events(root), sink, elements);
  }
}
