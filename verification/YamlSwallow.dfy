/**
 Edits that do not read back: a comment comes to stand after a less indented literal block,
 and is read as more of its text. The comment stood under a key that was removed, or under a
 deeper literal block that was rewritten.
 */
module YamlSwallow {
  import opened Text
  import opened YamlValue
  import opened YamlEmit
  import opened YamlBlock
  import opened YamlTree
  import opened YamlBuild
  import opened YamlEdit
  import opened YamlMarks
  import opened YamlSplice
  import opened YamlSplicePrints
  import opened YamlSetPrints
  import opened YamlFits
  import opened YamlMisfits
  import opened YamlRemove
  import opened YamlRemovePrints
  import opened YamlRemoveFits

  /** Lines a literal block indented by `indent` takes in, the last one a comment. */
  predicate Taken(lines: seq<Br>, indent: nat) {
    && lines != [] && lines[|lines| - 1].note != ""
    && forall b | b in lines :: Trivia(b) && b.pad >= indent
  }

  lemma {:induction false} OutdentedConcat(a: seq<string>, b: seq<string>, indent: nat)
    requires Outdented(a, indent).Some? && Outdented(b, indent).Some?
    ensures Outdented(a + b, indent) == Some(Outdented(a, indent).value + Outdented(b, indent).value)
  {
    if a == [] {
      assert a + b == b;
      var none: seq<string> := [];
      assert none + Outdented(b, indent).value == Outdented(b, indent).value;
    } else {
      assert (a + b)[1..] == a[1..] + b;
      OutdentedConcat(a[1..], b, indent);
      var x, y := Outdented(a[1..], indent).value, Outdented(b, indent).value;
      var first := if LeadingSpaces(a[0]) >= indent then a[0][indent..] else "";
      assert [first] + (x + y) == ([first] + x) + y;
    }
  }

  lemma {:induction false} OutdentedTaken(lines: seq<Br>, indent: nat)
    requires forall b | b in lines :: b.pad >= indent
    ensures Outdented(Lines(lines), indent).Some?
    ensures |Outdented(Lines(lines), indent).value| == |lines|
    ensures lines != [] && lines[|lines| - 1].note != "" ==> Outdented(Lines(lines), indent).value[|lines| - 1] != ""
  {
    hide LeadingSpaces, Spaces;
    if lines == [] {
    } else {
      var b := lines[0];
      assert Lines(lines)[1..] == Lines(lines[1..]);
      assert Lines(lines)[0] == Spaces(b.pad) + b.note;
      assert LeadingSpaces(Spaces(b.pad) + b.note) >= b.pad by {
        var s := Spaces(b.pad) + b.note;
        var n := LeadingSpaces(s);
        assert forall i | 0 <= i < b.pad :: s[i] == ' ';
      }
      OutdentedTaken(lines[1..], indent);
    }
  }

  lemma {:induction false} FirstIndent(a: seq<string>, b: seq<string>)
    requires BlockIndent(a).Some?
    ensures BlockIndent(a + b) == BlockIndent(a)
  {
    if LeadingSpaces(a[0]) == |a[0]| {
      assert (a + b)[1..] == a[1..] + b;
      FirstIndent(a[1..], b);
    }
  }

  /** A literal block followed by such lines is a longer literal block. */
  lemma LiteralTakes(n: Node, lines: seq<Br>)
    requires n.Literal? && NodeOk(n) && Taken(lines, n.indent)
    ensures var n' := n.(body := n.body + lines); PrintNode(n') == PrintNode(n) + PrintBrs(lines) && NodeOk(n')
  {
    hide Trailing, PrintBrs, OneLine;
    var n' := n.(body := n.body + lines);
    PrintBrsConcat(n.body, lines);
    var head := (if n.clip then "|" else "|-") + n.note;
    assert head + (PrintBrs(n.body) + PrintBrs(lines)) == head + PrintBrs(n.body) + PrintBrs(lines);
    forall x | x in n'.body ensures LineBreak(x.nl) && OneLine(x.note) {
      assert x in n.body || x in lines;
    }
    var last := lines[|lines| - 1];
    assert last in lines && last.note[0] == '#';
    assert HasInk(last.note);
  }

  /** The lines taken in are part of the block's text. */
  lemma LiteralGrows(n: Node, lines: seq<Br>)
    requires n.Literal? && Spelled(n) && Taken(lines, n.indent)
    ensures var n' := n.(body := n.body + lines); Spelled(n') && NodeValue(n') != NodeValue(n)
  {
    hide Outdented, BlockIndent, Join, Lines, Trivia;
    var n' := n.(body := n.body + lines);
    assert Lines(n'.body) == Lines(n.body) + Lines(lines) by { LinesConcat(n.body, lines); }
    FirstIndent(Lines(n.body), Lines(lines));
    OutdentedTaken(lines, n.indent);
    OutdentedConcat(Lines(n.body), Lines(lines), n.indent);
    var a, b := Outdented(Lines(n.body), n.indent).value, Outdented(Lines(lines), n.indent).value;
    assert (a + b)[|a + b| - 1] == b[|b| - 1];
    assert |Join(a + b, "\n")| > |Join(a, "\n")| by { JoinConcat(a, b, "\n"); }
  }

  lemma LinesConcat(a: seq<Br>, b: seq<Br>)
    ensures Lines(a + b) == Lines(a) + Lines(b)
  {
  }

  /** Where the lines go when child `i` leaves a block mapping: `stay` is the last of them. */
  function Swallowed(n: Node, i: nat): Node
    requires n.Coll? && 0 < i < |n.kids| - 1 && n.kids[i - 1].node.Literal? && n.kids[i].lead != []
  {
    var merged := Merge(n.kids[i].lead, n.kids[i + 1].lead);
    var lit := n.kids[i - 1].node;
    var taken := n.kids[i - 1].(node := lit.(body := lit.body + merged[..|merged| - 1]));
    n.(kids := n.kids[..i - 1] + [taken, n.kids[i + 1].(lead := [merged[|merged| - 1]])] + n.kids[i + 2..])
  }

  /** Child `i` stands right under a literal block, with comments as deep as that block under it. */
  predicate UnderLiteral(n: Node, i: nat) {
    && n.Coll? && !n.flow && n.isMap && 0 < i < |n.kids| - 1 && n.kids[i - 1].node.Literal?
    && |n.kids[i].lead| == 1 && |n.kids[i + 1].lead| >= 2
    && Taken(n.kids[i + 1].lead[..|n.kids[i + 1].lead| - 1], n.kids[i - 1].node.indent)
  }

  function Left(n: Node, i: nat): Node
    requires n.Coll? && 0 < i < |n.kids| - 1 && n.kids[i].lead != []
  {
    n.(kids := n.kids[..i] + [n.kids[i + 1].(lead := Merge(n.kids[i].lead, n.kids[i + 1].lead))] + n.kids[i + 2..])
  }

  lemma MergedTaken(n: Node, i: nat)
    requires UnderLiteral(n, i) && NodeOk(n)
    ensures var merged := Merge(n.kids[i].lead, n.kids[i + 1].lead);
            && Taken(merged[..|merged| - 1], n.kids[i - 1].node.indent)
            && Leads(merged, n.col) && Leads([merged[|merged| - 1]], n.col)
            && !Follows(n.kids[i - 1].node, n.kids[i + 1].lead)
  {
    hide BlockKidOk, Trivia, NodeOk, Leads, Merge, FlowShape;
    CollParts(n);
    NextLead(n.kids[i], n.col, n.isMap);
    NextLead(n.kids[i + 1], n.col, n.isMap);
    MergedLines(n.kids[i].lead, n.kids[i + 1].lead, n.col, n.kids[i - 1].node.indent);
    var b := n.kids[i + 1].lead;
    assert !Follows(n.kids[i - 1].node, b) by {
      hide Taken, Spares;
      TakenNotSpared(b[..|b| - 1], b[|b| - 1..], (n.kids[i - 1].node).indent);
      assert b[..|b| - 1] + b[|b| - 1..] == b;
    }
  }

  lemma MergedLines(a: seq<Br>, b: seq<Br>, col: nat, indent: nat)
    requires Leads(a, col) && Leads(b, col) && |a| == 1 && |b| >= 2 && Taken(b[..|b| - 1], indent)
    ensures var m := Merge(a, b); Taken(m[..|m| - 1], indent) && Leads(m, col) && Leads([m[|m| - 1]], col)
  {
    hide Trivia;
    var m, first := Merge(a, b), Br(a[0].nl, b[0].pad, b[0].note);
    assert m == [first] + b[1..];
    assert Leads(m, col) by { MergeLeads(a, b, col); }
    assert Trivia(first) && first.pad >= indent by {
      assert a[0] in a && b[0] in b && b[0] in b[..|b| - 1];
      TriviaOf(a[0], b[0]);
    }
    var rest := b[..|b| - 1];
    assert m[..|m| - 1] == [first] + rest[1..];
    assert forall x | x in rest[1..] :: x in rest;
    assert m[|m| - 2] == (if |b| == 2 then first else rest[|b| - 2]);
    assert m[|m| - 1] in m;
  }

  lemma {:induction false} TakenNotSpared(lines: seq<Br>, more: seq<Br>, indent: nat)
    requires Taken(lines, indent)
    ensures !Spares(lines + more, indent)
  {
    hide Trivia;
    assert (lines + more)[0] == lines[0] && lines[0] in lines;
    if lines[0].note == "" {
      assert lines[1..] != [] && lines[1..][|lines| - 2] == lines[|lines| - 1];
      assert forall b | b in lines[1..] :: b in lines;
      TakenNotSpared(lines[1..], more, indent);
      assert (lines + more)[1..] == lines[1..] + more;
    }
  }

  /** A literal block and the child after it, in the same text with the lines between them in the block. */
  lemma PairPrints(lit: Kid, next: Kid, merged: seq<Br>)
    requires lit.node.Literal? && NodeOk(lit.node) && lit.tail == "" && next.sep == "" && merged != []
    requires Taken(merged[..|merged| - 1], lit.node.indent)
    ensures var moved := merged[..|merged| - 1];
            PrintKid(lit) + PrintKid(next.(lead := merged))
            == PrintKid(lit.(node := lit.node.(body := lit.node.body + moved)))
               + PrintKid(next.(lead := [merged[|merged| - 1]]))
  {
    hide *;
    var moved, last := merged[..|merged| - 1], merged[|merged| - 1];
    var taken := lit.(node := lit.node.(body := lit.node.body + moved));
    var a, b := next.(lead := merged), next.(lead := [last]);
    LiteralTakes(lit.node, moved);
    SameRest(a, b);
    RestPrints(a);
    RestPrints(b);
    LaterLead(a);
    LaterLead(b);
    LastBr(merged);
    OneBrs(last);
    KidSplit(lit);
    KidSplit(taken);
    SameKidHead(lit, taken);
    SwallowGlue(KidHead(lit), PrintNode(lit.node), PrintBrs(moved), PrintBr(last), KidRest(a));
  }

  /** The same text, read as a longer literal block. */
  lemma SwallowedPrints(n: Node, i: nat)
    requires UnderLiteral(n, i) && NodeOk(n)
    ensures PrintNode(Left(n, i)) == PrintNode(Swallowed(n, i))
  {
    hide NodeOk, PrintKid, PrintKids, BlockKidOk, Merge, Leads, Taken, PrintNode, FlowShape, Follows;
    MergedTaken(n, i);
    CollParts(n);
    var merged := Merge(n.kids[i].lead, n.kids[i + 1].lead);
    var moved, last := merged[..|merged| - 1], merged[|merged| - 1];
    var lit, next := n.kids[i - 1], n.kids[i + 1];
    var taken := lit.(node := lit.node.(body := lit.node.body + moved));
    var a, b := next.(lead := merged), next.(lead := [last]);
    NextLead(next, n.col, n.isMap);
    LiteralTail(lit, n.col, i - 1 == 0, n.isMap);
    PairPrints(lit, next, merged);
    TwoKids(n.kids[..i - 1], lit, a, n.kids[i + 2..]);
    TwoKids(n.kids[..i - 1], taken, b, n.kids[i + 2..]);
    assert n.kids[..i] + [a] + n.kids[i + 2..] == n.kids[..i - 1] + [lit, a] + n.kids[i + 2..];
    SameText(Left(n, i), Swallowed(n, i));
  }

  lemma SameText(a: Node, b: Node)
    requires a.Coll? && b.Coll? && b == a.(kids := b.kids) && PrintKids(a.kids) == PrintKids(b.kids)
    ensures PrintNode(a) == PrintNode(b)
  {
    hide PrintKids;
  }

  lemma SameKidHead(a: Kid, b: Kid)
    requires b == a.(node := b.node)
    ensures KidHead(a) == KidHead(b)
  {
  }

  lemma OneBrs(b: Br)
    ensures PrintBrs([b]) == PrintBr(b)
  {
    assert PrintBrs([b]) == PrintBr(b) + "";
  }

  lemma LiteralTail(k: Kid, col: nat, first: bool, isMap: bool)
    requires BlockKidOk(k, col, first, isMap) && k.node.Literal?
    ensures k.tail == "" && k.node.indent > col
  {
    hide Leads, ReadScalar;
  }

  lemma TwoKids(front: seq<Kid>, a: Kid, b: Kid, after: seq<Kid>)
    ensures PrintKids(front + [a, b] + after) == PrintKids(front) + (PrintKid(a) + PrintKid(b)) + PrintKids(after)
  {
    hide PrintKid, PrintKids;
    PrintKidsConcat(front + [a, b], after);
    PrintKidsConcat(front, [a, b]);
    KidsCons(a, [b]);
    OneKid(b);
    assert [a] + [b] == [a, b];
  }

  lemma SwallowGlue(h: string, lit: string, moved: string, last: string, rest: string)
    ensures (h + lit + "") + ((moved + last) + rest) == (h + (lit + moved) + "") + (last + rest)
  {
  }

  lemma SwallowedOk(n: Node, i: nat)
    requires UnderLiteral(n, i) && NodeOk(n)
    ensures NodeOk(Swallowed(n, i))
    ensures LastLiteral(Swallowed(n, i)) == LastLiteral(n)
  {
    hide NodeOk, BlockKidOk, Merge, Leads, Taken, Follows, LastLiteral, Swallowed, Left, PrintNode, PrintBrs;
    MergedTaken(n, i);
    CollParts(n);
    var g := Swallowed(n, i);
    SwallowedKids(n, i);
    CollParts(g);
    var merged := Merge(n.kids[i].lead, n.kids[i + 1].lead);
    var moved, last := merged[..|merged| - 1], merged[|merged| - 1];
    var lit, next := n.kids[i - 1], n.kids[i + 1];
    var taken := lit.(node := lit.node.(body := lit.node.body + moved));
    LiteralTakes(lit.node, moved);
    LiteralTail(lit, n.col, i - 1 == 0, n.isMap);
    TakenKid(lit, taken, n.col, i - 1 == 0, n.isMap);
    NextLead(next, n.col, n.isMap);
    LeadChanged(next, n.col, false, n.isMap, [last]);
    LastFollows(taken.node, last, n.col);
    forall j | 0 <= j < |g.kids| ensures NodeOk(g.kids[j].node) && BlockKidOk(g.kids[j], n.col, j == 0, n.isMap) {
      if j > i { assert g.kids[j] == n.kids[j + 1]; }
    }
    forall j | 0 <= j < |g.kids| - 1 ensures Follows(g.kids[j].node, g.kids[j + 1].lead) {
      if j < i - 1 { assert Follows(n.kids[j].node, n.kids[j + 1].lead); }
      else if j >= i { assert Follows(n.kids[j + 1].node, n.kids[j + 2].lead); }
    }
    LastOf(g);
    LastOf(n);
  }

  /** Every child is spelled as before, but for the block with its new lines. */
  lemma SwallowedSpelled(n: Node, i: nat)
    requires UnderLiteral(n, i) && Sound(n)
    ensures Spelled(Swallowed(n, i)) && NodeValue(Swallowed(n, i)) != NodeValue(Left(n, i))
  {
    hide NodeOk, KeySpelled, NodeValue, Swallowed, BlockIndent, ReadBlock, ReadScalar, Follows;
    MergedTaken(n, i);
    SwallowedKids(n, i);
    var g := Left(n, i);
    assert g == n.(kids := g.kids) && |g.kids| == |n.kids| - 1 && g.kids[i - 1] == n.kids[i - 1] by {
      hide Merge, Taken;
    }
    var merged := Merge(n.kids[i].lead, n.kids[i + 1].lead);
    LiteralGrows(n.kids[i - 1].node, merged[..|merged| - 1]);
    ValuesDiffer(Swallowed(n, i), Left(n, i), i - 1);
  }

  lemma SwallowedKids(n: Node, i: nat)
    requires UnderLiteral(n, i)
    ensures var g := Swallowed(n, i);
            var merged := Merge(n.kids[i].lead, n.kids[i + 1].lead);
            var lit := n.kids[i - 1];
            && g == n.(kids := g.kids) && |g.kids| == |n.kids| - 1
            && (forall j | 0 <= j < i - 1 :: g.kids[j] == n.kids[j])
            && g.kids[i - 1] == lit.(node := lit.node.(body := lit.node.body + merged[..|merged| - 1]))
            && g.kids[i] == n.kids[i + 1].(lead := [merged[|merged| - 1]])
            && (forall j | i < j < |g.kids| :: g.kids[j] == n.kids[j + 1])
  {
    hide Merge, Taken;
  }

  lemma TakenKid(a: Kid, b: Kid, col: nat, first: bool, isMap: bool)
    requires BlockKidOk(a, col, first, isMap) && a.node.Literal? && b.node.Literal? && b == a.(node := b.node)
             && b.node.indent == a.node.indent
    ensures BlockKidOk(b, col, first, isMap)
  {
    hide Leads, ReadScalar;
  }

  lemma LastFollows(n: Node, last: Br, col: nat)
    requires n.Literal? && n.indent > col && Leads([last], col)
    ensures Follows(n, [last])
  {
  }

  lemma ValuesDiffer(a: Node, b: Node, j: nat)
    requires a.Coll? && b.Coll? && a.isMap && b.isMap && j < |a.kids| && j < |b.kids|
    requires NodeValue(a.kids[j].node) != NodeValue(b.kids[j].node)
    ensures NodeValue(a) != NodeValue(b)
  {
    assert NodeValue(a).pairs[j].val == NodeValue(a.kids[j].node);
    assert NodeValue(b).pairs[j].val == NodeValue(b.kids[j].node);
  }

  /**
   A top-level key between a literal block and comments at least as deep as that block's text:
   removed, its comments read back as the last lines of the literal block, so the removal is one
   that does not fit.
   */
  lemma CommentSwallowed(d: Doc, i: nat, name: string)
    requires DocOk(d) && UnderLiteral(d.root.node, i)
    requires StepKid(d.root.node, Name(name)) == Ok(Some(i)) && !HasUnicodeBreak(PrintDoc(d))
    ensures var path := [Name(name)];
            var other := d.(root := d.root.(node := Swallowed(d.root.node, i)));
            && RemoveDoc(d, path).Ok? && !RemoveDocFits(d, path)
            && PrintDoc(RemoveDoc(d, path).value) == PrintDoc(other)
            && DocOk(other) && Without(DocValue(d), path) != Some(DocValue(other))
  {
    hide NodeOk, Spelled, PrintKids, HasUnicodeBreak, PrintBrs, KidHead, Follows, StepKid, RootOk, PrintNode,
         Without, RemoveDoc, RemoveDocFits, LastLiteral, NodeValue, Left, PrintDoc, KidIn;
    var path, n := [Name(name)], d.root.node;
    RemoveTopKey(d, i, name);
    SwallowedPrints(n, i);
    SwallowedOk(n, i);
    SwallowedSpelled(n, i);
    var e := RemoveDoc(d, path).value;
    var other := d.(root := d.root.(node := Swallowed(n, i)));
    SamePrinted(e, other);
    assert RootOk(d.root.(node := Swallowed(d.root.node, i))) by {
      hide NodeOk, Taken, KidIn, Swallowed;
      var g := Swallowed(d.root.node, i);
      assert g == d.root.node.(kids := g.kids) && g.kids != [] by { hide Merge, Taken; }
      RootIn(d.root);
      BlockStands(Root, d.root, Swallowed(d.root.node, i).kids);
      RootIn(d.root.(node := Swallowed(d.root.node, i)));
    }
    FollowsLast(other.root.node, n, d.end);
    RemoveDocValue(d, path);
  }

  lemma SamePrinted(a: Doc, b: Doc)
    requires PrintNode(a.root.node) == PrintNode(b.root.node) && b == a.(root := a.root.(node := b.root.node))
    ensures PrintDoc(a) == PrintDoc(b)
  {
    hide PrintNode, PrintBrs;
  }

  lemma RootIn(k: Kid)
    ensures KidIn(Root, k) <==> RootOk(k)
  {
    hide RootOk;
  }

  lemma RemoveTopKey(d: Doc, i: nat, name: string)
    requires DocOk(d) && UnderLiteral(d.root.node, i)
    requires StepKid(d.root.node, Name(name)) == Ok(Some(i)) && !HasUnicodeBreak(PrintDoc(d))
    ensures RemoveDoc(d, [Name(name)]) == Ok(d.(root := d.root.(node := Left(d.root.node, i))))
    ensures !RemoveDocFits(d, [Name(name)]) && Names(d.root.node, [Name(name)])
  {
    hide StepKid, HasUnicodeBreak, PrintDoc, Merge, Follows, NodeOk, RootOk, Taken, BlockKidOk;
    // The key stands right under the block: no comment has ended it.
    assert forall indent: nat :: !Shut(d.root.node.kids[i].lead, indent) by {
      hide NodeOk, BlockKidOk, Taken, Trivia, Leads;
      CollParts(d.root.node);
      NextLead(d.root.node.kids[i], d.root.node.col, d.root.node.isMap);
      LeadsTrivia(d.root.node.kids[i].lead, d.root.node.col);
      assert d.root.node.kids[i].lead == [d.root.node.kids[i].lead[0]];
    }
    MergedTaken(d.root.node, i);
    var path := [Name(name)];
    assert path[1..] == [];
    assert Names(d.root.node.kids[i].node, path[1..]);
  }

  // ---------------------------------------------------------- a rewritten block

  /** Child `i` is a literal block over comments that stand at least as deep as its new text will. */
  predicate OverComments(n: Node, i: nat, text: string) {
    && n.Coll? && !n.flow && n.isMap && i + 1 < |n.kids|
    && n.kids[i].mark.Key? && n.kids[i].node.Literal? && BlockScalar(text, n.col + 2).Some?
    && |n.kids[i + 1].lead| >= 2 && Taken(n.kids[i + 1].lead[..|n.kids[i + 1].lead| - 1], n.col + 2)
  }

  function Rewritten(n: Node, i: nat, text: string, nl: string): Node
    requires OverComments(n, i, text)
  {
    n.(kids := n.kids[i := n.kids[i].(node := LiteralNode(n.kids[i].node.note, text, n.col + 2, nl))])
  }

  /** The rewritten block with the comments as its last lines. */
  function Overgrown(n: Node, i: nat, text: string, nl: string): Node
    requires OverComments(n, i, text)
  {
    var lit := LiteralNode(n.kids[i].node.note, text, n.col + 2, nl);
    var lead := n.kids[i + 1].lead;
    var taken := n.kids[i].(node := lit.(body := lit.body + lead[..|lead| - 1]));
    n.(kids := n.kids[..i] + [taken, n.kids[i + 1].(lead := [lead[|lead| - 1]])] + n.kids[i + 2..])
  }

  lemma OvergrownPrints(n: Node, i: nat, text: string, nl: string)
    requires OverComments(n, i, text) && NodeOk(n) && LineBreak(nl)
    ensures PrintNode(Rewritten(n, i, text, nl)) == PrintNode(Overgrown(n, i, text, nl))
  {
    hide NodeOk, PrintKid, PrintKids, BlockKidOk, Leads, Taken, KidRest, PrintBrs, KidHead, PrintNode, LiteralBody,
         BlockScalar, LineBreak, NodeValue, FlowShape;
    CollParts(n);
    var lit := LiteralNode(n.kids[i].node.note, text, n.col + 2, nl);
    var lead := n.kids[i + 1].lead;
    var moved, last := lead[..|lead| - 1], lead[|lead| - 1];
    var e := n.kids[i].(node := lit);
    var taken := n.kids[i].(node := lit.(body := lit.body + moved));
    var a, b := n.kids[i + 1], n.kids[i + 1].(lead := [last]);
    LiteralNote(n.kids[i].node);
    LiteralNodeOk(n.kids[i].node.note, text, n.col + 2, nl);
    LiteralTakes(lit, moved);
    SameRest(a, b);
    RestPrints(a);
    RestPrints(b);
    NextLead(a, n.col, n.isMap);
    LaterLead(a);
    LaterLead(b);
    LastBr(lead);
    OneBrs(last);
    KidSplit(e);
    KidSplit(taken);
    LiteralTail(n.kids[i], n.col, i == 0, n.isMap);
    assert KidHead(taken) == KidHead(e) by { SameKidHead(e, taken); }
    SwallowGlue(KidHead(e), PrintNode(lit), PrintBrs(moved), PrintBr(last), KidRest(a));
    TwoKids(n.kids[..i], e, a, n.kids[i + 2..]);
    TwoKids(n.kids[..i], taken, b, n.kids[i + 2..]);
    assert n.kids[i := e] == n.kids[..i] + [e, a] + n.kids[i + 2..];
    SameText(Rewritten(n, i, text, nl), Overgrown(n, i, text, nl));
  }

  lemma OvergrownOk(n: Node, i: nat, text: string, nl: string)
    requires OverComments(n, i, text) && NodeOk(n) && LineBreak(nl)
    ensures NodeOk(Overgrown(n, i, text, nl))
    ensures LastLiteral(Overgrown(n, i, text, nl)) == LastLiteral(n)
  {
    hide NodeOk, BlockKidOk, Taken, Follows, LastLiteral, LiteralBody, BlockScalar, LineBreak, FlowShape, PrintNode,
         Trailing;
    CollParts(n);
    var g := Overgrown(n, i, text, nl);
    CollParts(g);
    var lit := LiteralNode(n.kids[i].node.note, text, n.col + 2, nl);
    var k, next := n.kids[i], n.kids[i + 1];
    var moved, last := next.lead[..|next.lead| - 1], next.lead[|next.lead| - 1];
    LiteralNote(k.node);
    LiteralNodeOk(k.node.note, text, n.col + 2, nl);
    LiteralTakes(lit, moved);
    LiteralStands(k, lit.(body := lit.body + moved), n.col, i == 0, n.isMap);
    NextLead(next, n.col, n.isMap);
    assert Leads([next.lead[|next.lead| - 1]], n.col);
    LeadChanged(next, n.col, false, n.isMap, [last]);
    LastFollows(g.kids[i].node, last, n.col);
    forall j | 0 <= j < |g.kids| ensures NodeOk(g.kids[j].node) && BlockKidOk(g.kids[j], n.col, j == 0, n.isMap) {
      if j != i && j != i + 1 { assert g.kids[j] == n.kids[j]; }
    }
    forall j | 0 <= j < |g.kids| - 1 ensures Follows(g.kids[j].node, g.kids[j + 1].lead) {
      if j != i {
        assert g.kids[j].node == n.kids[j].node && g.kids[j + 1].lead == n.kids[j + 1].lead;
        assert Follows(n.kids[j].node, n.kids[j + 1].lead);
      }
    }
    LastOf(g);
    LastOf(n);
  }

  lemma OvergrownSpelled(n: Node, i: nat, text: string, nl: string)
    requires OverComments(n, i, text) && Spelled(n)
    ensures Spelled(Overgrown(n, i, text, nl))
    ensures NodeValue(Overgrown(n, i, text, nl)) != NodeValue(Rewritten(n, i, text, nl))
  {
    hide KeySpelled, Taken, NodeValue, LiteralBody, BlockScalar, BlockIndent, ReadBlock, ReadScalar;
    var lit, lead := LiteralNode(n.kids[i].node.note, text, n.col + 2, nl), n.kids[i + 1].lead;
    LiteralValue(n.kids[i].node.note, text, n.col + 2, nl);
    LiteralGrows(lit, lead[..|lead| - 1]);
    ValuesDiffer(Overgrown(n, i, text, nl), Rewritten(n, i, text, nl), i);
  }

  lemma LiteralStands(k: Kid, lit: Node, col: nat, first: bool, isMap: bool)
    requires BlockKidOk(k, col, first, isMap) && k.node.Literal? && lit.Literal? && lit.indent > col
    ensures BlockKidOk(k.(node := lit), col, first, isMap)
  {
    hide Leads, ReadScalar;
  }

  lemma RewrittenIs(n: Node, i: nat, text: string, nl: string)
    requires OverComments(n, i, text)
    ensures Rewritten(n, i, text, nl)
            == n.(kids := n.kids[i := ReplaceKid(n.kids[i], false, n.col, Str(text), false, nl)])
  {
    hide LiteralBody, BlockScalar, Taken;
  }

  /**
   A top-level literal block over comments at least as deep as its new text: set to that text,
   the comments read back as its last lines, so the edit is one that does not fit.
   */
  lemma CommentOvergrown(d: Doc, i: nat, name: string, text: string)
    requires DocOk(d) && OverComments(d.root.node, i, text)
    requires StepKid(d.root.node, Name(name)) == Ok(Some(i)) && !HasUnicodeBreak(PrintDoc(d))
    ensures var path, nl := [Name(name)], Newline(PrintDoc(d));
            var other := d.(root := d.root.(node := Overgrown(d.root.node, i, text, nl)));
            && EditDoc(d, path, Str(text), false).Ok? && !DocFits(d, path, Str(text), false)
            && PrintDoc(EditDoc(d, path, Str(text), false).value) == PrintDoc(other)
            && DocOk(other) && With(DocValue(d), path, Str(text)) != Some(DocValue(other))
  {
    hide NodeOk, Spelled, PrintKids, HasUnicodeBreak, PrintBrs, KidHead, Follows, StepKid, RootOk, PrintNode,
         Overgrown, With,
         EditDoc, DocFits, Taken, LastLiteral, NodeValue, Rewritten, PrintDoc, Newline, LineBreak, BlockScalar,
         ReplaceFits, ReplaceKid, KidIn;
    var path, n, nl := [Name(name)], d.root.node, Newline(PrintDoc(d));
    NewlineOk(PrintDoc(d));
    EditTopKey(d, i, name, Str(text));
    NotSpared(n, i, text, d.end);
    OvergrownPrints(n, i, text, nl);
    OvergrownOk(n, i, text, nl);
    OvergrownSpelled(n, i, text, nl);
    RewrittenIs(n, i, text, nl);
    var e := EditDoc(d, path, Str(text), false).value;
    var other := d.(root := d.root.(node := Overgrown(n, i, text, nl)));
    SamePrinted(e, other);
    assert RootOk(d.root.(node := Overgrown(d.root.node, i, text, nl))) by {
      hide NodeOk, Taken, KidIn, Overgrown, BlockScalar;
      OvergrownShape(d.root.node, i, text, nl);
      RootIn(d.root);
      BlockStands(Root, d.root, Overgrown(d.root.node, i, text, nl).kids);
      RootIn(d.root.(node := Overgrown(d.root.node, i, text, nl)));
    }
    FollowsLast(other.root.node, n, d.end);
    EditDocValue(d, path, Str(text), false);
  }

  lemma NotSpared(n: Node, i: nat, text: string, end: seq<Br>)
    requires OverComments(n, i, text)
    ensures !ReplaceFits(n.kids[i], false, n.col, Str(text), false, false, AfterKid(n, i, end))
  {
    hide BlockScalar, Taken, Spares;
    var lead := n.kids[i + 1].lead;
    TakenNotSpared(lead[..|lead| - 1], lead[|lead| - 1..], n.col + 2);
    assert lead[..|lead| - 1] + lead[|lead| - 1..] == lead;
  }

  lemma OvergrownShape(n: Node, i: nat, text: string, nl: string)
    requires OverComments(n, i, text)
    ensures var g := Overgrown(n, i, text, nl); g == n.(kids := g.kids) && g.kids != []
  {
    hide LiteralBody, BlockScalar, Taken;
  }
}
