/**
 What a composer reports for a printed document: every node's start, every inline
 node's end, and for a block an end that may run on over white space. The position
 helpers of the splicer, applied to such marks, land where the tree says.
 */
module YamlMarks {
  import opened Text
  import opened YamlValue
  import opened YamlEmit
  import opened YamlBlock
  import opened YamlTree
  import opened YamlEdit

  /** Where the value of child `i` of a collection at `at` starts, and the child itself. */
  function KidAt(n: Node, at: nat, i: nat): nat
    requires n.Coll? && i < |n.kids|
  {
    at + |Open(n)| + |PrintKids(n.kids[..i])|
  }

  function KeyMark(k: Kid, at: nat): Option<CKey> {
    match k.mark
    case Key(src, _, name) => Some(CKey(at + |KidLead(k)|, at + |KidLead(k)| + |src|, name))
    case _ => None
  }

  /** `m` is what a composer may report for `n`, printed at `at` in `text`. */
  predicate Composed(text: string, n: Node, at: nat, m: CNode)
    decreases n
  {
    match n
    case Scalar(src, val) => m == CScalar(at, at + |src|, false, val.Null?)
    case Literal(_, _, _, _) =>
      && m.CScalar? && m.start == at && m.block && !m.isNull
      && at + |PrintNode(n)| <= m.end <= |text|
      && forall i | at + |PrintNode(n)| <= i < m.end :: text[i] in " \t\r\n"
    case Coll(flow, isMap, _, kids, _) =>
      && m.CColl? && m.isMap == isMap && m.flow == flow && m.start == at
      && |m.value| == |kids| && (flow ==> m.end == at + |PrintNode(n)|)
      && forall i | 0 <= i < |kids| ::
           && m.value[i].key == KeyMark(kids[i], KidAt(n, at, i))
           && Composed(text, kids[i].node, KidAt(n, at, i) + |KidHead(kids[i])|, m.value[i].value)
  }

  // ----------------------------------------------------- ends of lines and nodes

  lemma StripBackKeeps(text: string, start: nat, at: nat, end: nat)
    requires start <= at < end <= |text| && text[at] !in " \t\r\n"
    ensures at < StripBack(text, start, end)
  {
    if end - 1 > at && text[end - 1] in " \t\r\n" {
      StripBackKeeps(text, start, at, end - 1);
    }
  }

  lemma StripBackOver(text: string, start: nat, from: nat, end: nat)
    requires start <= from <= end <= |text| && forall i | from <= i < end :: text[i] in " \t\r\n"
    ensures StripBack(text, start, end) <= from
    decreases end
  {
    if end > from {
      StripBackOver(text, start, from, end - 1);
    }
  }

  /** The last line of a literal block and what precedes it. */
  lemma LastLine(n: Node)
    requires n.Literal? && LiteralOk(n)
    ensures var b := n.body[|n.body| - 1];
            var head := (if n.clip then "|" else "|-") + n.note + PrintBrs(n.body[..|n.body| - 1]) + b.nl
              + Spaces(b.pad);
            PrintNode(n) == head + b.note && OneLine(b.note) && HasInk(b.note)
  {
    hide PrintBrs, Spaces, BlockIndent, ReadBlock, Trailing, Lines, HasInk, OneLine;
    LastBr(n.body);
    var h := if n.clip then "|" else "|-";
    var front := PrintBrs(n.body[..|n.body| - 1]);
    assert h + n.note + (front + PrintBr(n.body[|n.body| - 1]))
           == h + n.note + front + n.body[|n.body| - 1].nl + Spaces(n.body[|n.body| - 1].pad)
           + n.body[|n.body| - 1].note by {
      hide Spaces;
    }
    assert OneLine(n.body[|n.body| - 1].note) && HasInk(n.body[|n.body| - 1].note) by { LastInk(n); }
  }

  lemma LastInk(n: Node)
    requires n.Literal? && LiteralOk(n)
    ensures OneLine(n.body[|n.body| - 1].note) && HasInk(n.body[|n.body| - 1].note)
  {
    hide OneLine;
    assert n.body[|n.body| - 1] in n.body;
  }

  lemma LastBr(brs: seq<Br>)
    requires brs != []
    ensures PrintBrs(brs) == PrintBrs(brs[..|brs| - 1]) + PrintBr(brs[|brs| - 1])
  {
    hide PrintBr;
    var b := brs[|brs| - 1];
    assert brs == brs[..|brs| - 1] + [b];
    PrintBrsConcat(brs[..|brs| - 1], [b]);
    assert [b][1..] == [];
    assert PrintBrs([b]) == PrintBr(b) + "";
  }

  lemma SolidCat(a: string, b: string)
    requires b != "" && Solid(b)
    ensures Solid(a + b)
  {
  }

  /**
   The content end of a node is inside its text, and no line break stands between it
   and the text's end: the rest is a trailing comment or trailing blanks.
   */
  lemma {:induction false} ContentEndIn(text: string, pre: string, n: Node, post: string, m: CNode)
    requires text == pre + PrintNode(n) + post && NodeOk(n) && Composed(text, n, |pre|, m)
    ensures |pre| <= ContentEnd(text, m) <= |pre + PrintNode(n)|
    ensures OneLine(PrintNode(n)[ContentEnd(text, m) - |pre|..])
    ensures !IsBlockNode(n) ==> ContentEnd(text, m) == |pre + PrintNode(n)|
    ensures IsBlockNode(n) ==> PrintNode(n) != "" && Solid(PrintNode(n))
    decreases n
  {
    hide LiteralOk, FlowKidOk, BlockKidOk, Follows, PrintKids, ReadScalar;
    match n {
      case Scalar(src, val) =>
        assert PrintNode(n) == n.src;
      case Literal(_, _, _, _) =>
        assert |pre| <= ContentEnd(text, m) <= |pre + PrintNode(n)|
               && OneLine(PrintNode(n)[ContentEnd(text, m) - |pre|..])
               && PrintNode(n) != "" && Solid(PrintNode(n)) by {
          hide PrintNode, LiteralOk, OneLine, HasInk, Solid, StripBack;
          var head, note := LiteralParts(n);
          StripsToNote(text, pre, head, note, post, m.end);
          LiteralGlue(head, note, ContentEnd(text, m) - |pre|);
        }
      case Coll(flow, isMap, col, kids, close) =>
        if !flow {
          BlockEndIn(text, pre, n, post, m);
        } else {
          if kids != [] { assert ContentEnd(text, m) == m.end; }
        }
    }
  }

  lemma LiteralParts(n: Node) returns (head: string, note: string)
    requires n.Literal? && LiteralOk(n)
    ensures PrintNode(n) == head + note && OneLine(note) && HasInk(note)
  {
    hide PrintNode, Lines, ReadBlock, BlockIndent, OneLine, HasInk, Trailing, PrintBrs;
    LastLine(n);
    note := n.body[|n.body| - 1].note;
    head := (if n.clip then "|" else "|-") + n.note + PrintBrs(n.body[..|n.body| - 1])
            + n.body[|n.body| - 1].nl + Spaces(n.body[|n.body| - 1].pad);
  }

  lemma StripsToNote(text: string, pre: string, head: string, note: string, post: string, end: nat)
    requires text == pre + (head + note) + post && HasInk(note) && |pre + (head + note)| <= end <= |text|
    requires forall i | |pre + (head + note)| <= i < end :: text[i] in " \t\r\n"
    ensures note != "" && |pre| + |head| < StripBack(text, |pre|, end) <= |pre| + |head| + |note|
  {
    hide StripBack;
    var j :| 0 <= j < |note| && Ink(note[j]);
    var at := |head| + j;
    assert (head + note)[at] == note[j];
    // Positions in a concatenation.
    var b := head + note;
    assert (pre + b + post)[|pre| + at] == b[at];
    StripBackKeeps(text, |pre|, |pre| + at, end);
    StripBackOver(text, |pre|, |pre| + |head + note|, end);
  }

  lemma LiteralGlue(head: string, note: string, e: nat)
    requires note != "" && OneLine(note) && |head| <= e <= |head + note|
    ensures OneLine((head + note)[e..]) && Solid(head + note)
  {
    assert (head + note)[e..] == note[e - |head|..];
  }

  lemma {:induction false} BlockEndIn(text: string, pre: string, n: Node, post: string, m: CNode)
    requires n.Coll? && !n.flow && text == pre + PrintNode(n) + post && NodeOk(n) && Composed(text, n, |pre|, m)
    ensures |pre| <= ContentEnd(text, m) <= |pre + PrintNode(n)|
    ensures OneLine(PrintNode(n)[ContentEnd(text, m) - |pre|..])
    ensures PrintNode(n) != "" && Solid(PrintNode(n))
    decreases n, 0
  {
    hide PrintNode, FlowKidOk, BlockKidOk, Follows, PrintKids, PrintKid, KidHead, KeyMark, NodeOk, Composed,
         StripBack, Solid, OneLine;
    var last := |n.kids| - 1;
    BlockFacts(text, n, |pre|, m);
    var k := n.kids[last];
    BlockSplit(n, last);
    var front := PrintKids(n.kids[..last]);
    var lead := pre + front + KidHead(k);
    assert n.kids[last + 1..] == [];
    assert PrintKids([]) == "" by { EmptyKids(); }
    KidSplit(k);
    assert PrintNode(n) == front + (KidHead(k) + PrintNode(k.node) + k.tail);
    Regroup(pre, front, KidHead(k), PrintNode(k.node), k.tail, post);
    ContentEndIn(text, lead, k.node, k.tail + post, m.value[last].value);
    KidTailOk(k, n.col, last == 0, n.isMap);
    var e := ContentEnd(text, m.value[last].value);
    KeyBefore(k, |pre| + |Open(n)| + |front|);
    assert ContentEnd(text, m) == e;
    TailOfBlock(pre, front, KidHead(k), PrintNode(k.node), k.tail, e);
  }

  lemma Regroup(pre: string, front: string, head: string, p: string, tail: string, post: string)
    ensures pre + (front + (head + p + tail)) + post == (pre + front + head) + p + (tail + post)
  {
  }

  lemma TailOfBlock(pre: string, front: string, head: string, p: string, tail: string, e: nat)
    requires |pre + front + head| <= e <= |pre + front + head + p|
    requires OneLine(p[e - |pre + front + head|..]) && OneLine(tail)
    requires head + p + tail != "" && Solid(head + p + tail)
    ensures var all := front + (head + p + tail);
            OneLine(all[e - |pre|..]) && all != "" && Solid(all)
  {
    var all := front + (head + p + tail);
    assert all[e - |pre|..] == p[e - |pre + front + head|..] + tail;
    assert all[|all| - 1] == (head + p + tail)[|head + p + tail| - 1];
  }

  lemma EmptyKids()
    ensures PrintKids([]) == ""
  {
  }

  lemma BlockFacts(text: string, n: Node, at: nat, m: CNode)
    requires n.Coll? && !n.flow && NodeOk(n) && Composed(text, n, at, m)
    ensures n.kids != [] && n.close == "" && Open(n) == "" && Close(n) == ""
    ensures m.CColl? && !m.flow && m.isMap == n.isMap && m.start == at && |m.value| == |n.kids|
    ensures forall i | 0 <= i < |n.kids| ::
              && NodeOk(n.kids[i].node) && BlockKidOk(n.kids[i], n.col, i == 0, n.isMap)
              && m.value[i].key == KeyMark(n.kids[i], KidAt(n, at, i))
              && Composed(text, n.kids[i].node, KidAt(n, at, i) + |KidHead(n.kids[i])|, m.value[i].value)
  {
    hide BlockKidOk, FlowKidOk, KidHead, KeyMark, PrintNode, PrintKids, Follows;
  }

  /** A collection's text around one child. */
  lemma BlockSplit(n: Node, i: nat)
    requires n.Coll? && i < |n.kids|
    ensures PrintNode(n)
            == Open(n) + PrintKids(n.kids[..i]) + PrintKid(n.kids[i]) + (PrintKids(n.kids[i + 1..]) + Close(n))
  {
    hide PrintKid, PrintKids;
    PrintKidsAt(n.kids, i);
  }

  lemma KidSplit(k: Kid)
    ensures PrintKid(k) == KidHead(k) + PrintNode(k.node) + k.tail
  {
  }

  lemma KeyBefore(k: Kid, at: nat)
    ensures KeyMark(k, at).Some? ==> KeyMark(k, at).value.end <= at + |KidHead(k)|
    ensures KeyMark(k, at).Some? <==> k.mark.Key?
  {
    hide PrintBrs;
  }

  /** A block child ends its line with something that is no carriage return. */
  lemma KidTailOk(k: Kid, col: nat, first: bool, isMap: bool)
    requires BlockKidOk(k, col, first, isMap) && NodeOk(k.node)
    requires IsBlockNode(k.node) ==> PrintNode(k.node) != "" && Solid(PrintNode(k.node))
    ensures OneLine(k.tail) && (IsBlockNode(k.node) ==> k.tail == "")
    ensures PrintKid(k) != "" && Solid(PrintKid(k))
  {
    hide NodeOk, KidHead;
    KidSplit(k);
    hide PrintKid, PrintNode, NodeOk, Leads;
    if k.tail != "" {
      assert PrintKid(k)[|PrintKid(k)| - 1] == k.tail[|k.tail| - 1];
    } else {
      assert PrintKid(k) == KidHead(k) + PrintNode(k.node);
      if PrintNode(k.node) != "" {
        assert PrintKid(k)[|PrintKid(k)| - 1] == PrintNode(k.node)[|PrintNode(k.node)| - 1];
        InlineSolid(k.node);
      } else {
        EmptyKidSolid(k, col);
      }
    }
  }

  lemma InlineSolid(n: Node)
    requires NodeOk(n) && (IsBlockNode(n) ==> Solid(PrintNode(n)))
    ensures Solid(PrintNode(n))
  {
    hide FlowKidOk, BlockKidOk, LiteralOk, ReadScalar;
  }

  lemma FlowShown(n: Node)
    ensures n.Coll? && n.flow ==> PrintNode(n) != ""
    ensures n.Literal? ==> PrintNode(n) != ""
  {
    hide PrintKids, PrintBrs;
  }

  lemma EmptyKidSolid(k: Kid, col: nat)
    requires Placed(k, col) && NodeOk(k.node) && PrintNode(k.node) == "" && (k.mark.Key? || k.mark.Dash?)
    requires IsBlockNode(k.node) ==> PrintNode(k.node) != ""
    ensures KidHead(k) != "" && Solid(KidHead(k) + PrintNode(k.node)) && Solid(KidHead(k))
  {
    hide NodeOk, KidLead;
    FlowShown(k.node);
    assert KidHead(k) == KidLead(k) + MarkText(k.mark);
    assert MarkText(k.mark) != "";
  }

  /** The end of the line a block child ends on. */
  lemma BlockLineEnd(text: string, pre: string, k: Kid, post: string, m: CNode, col: nat, first: bool, isMap: bool)
    requires text == pre + PrintKid(k) + post && NodeOk(k.node) && LineEnd(post)
    requires BlockKidOk(k, col, first, isMap)
    requires Composed(text, k.node, |pre + KidHead(k)|, m)
    ensures Eol(text, ContentEnd(text, m)) == |pre + PrintKid(k)|
    ensures !IsBlockNode(k.node) ==> ContentEnd(text, m) == |pre + KidHead(k) + PrintNode(k.node)|
  {
    hide *;
    KidSplit(k);
    var lead := pre + KidHead(k);
    assert text == lead + PrintNode(k.node) + (k.tail + post);
    ContentEndIn(text, lead, k.node, k.tail + post, m);
    KidTailOk(k, col, first, isMap);
    EndGlue(text, pre, KidHead(k), PrintNode(k.node), k.tail, post, ContentEnd(text, m));
  }

  lemma EndGlue(text: string, pre: string, h: string, p: string, tail: string, post: string, e: nat)
    requires text == pre + (h + p + tail) + post && LineEnd(post)
    requires |pre + h| <= e <= |pre + h + p| && OneLine(p[e - |pre + h|..]) && OneLine(tail)
    requires h + p + tail != "" && Solid(h + p + tail)
    ensures Eol(text, e) == |pre + (h + p + tail)|
  {
    hide Eol;
    var i := e - |pre + h|;
    assert (h + p + tail)[|h| + i..] == p[i..] + tail;
    assert OneLine(p[i..] + tail);
    SolidCat(pre, h + p + tail);
    EolAt(pre, h + p + tail, post, e - |pre|);
  }
}
