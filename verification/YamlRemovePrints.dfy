/**
 `remove_value` on the text of a document is the printing of the document without
 that value, and fails exactly when the removal from the tree does.
 */
module YamlRemovePrints {
  import opened Text
  import opened YamlValue
  import opened YamlEmit
  import opened YamlBlock
  import opened YamlTree
  import opened YamlBuild
  import opened YamlEdit
  import opened YamlMarks
  import opened YamlSplice
  import opened YamlSplicePrints
  import opened YamlSetPrints
  import opened YamlRemove

  // --------------------------------------------------------------- line cuts

  /** A removed line's lead before what followed it, which loses its first line break. */
  function CutText(lead: seq<Br>, rest: string): string
    requires lead != []
  {
    PrintBrs(lead[..|lead| - 1]) + lead[|lead| - 1].nl + From(rest, NextLine(rest, 0))
  }

  function BelowText(below: Option<seq<Br>>, post: string): string {
    if below.Some? && below.value != [] then CutText(below.value, post) else post
  }

  /** The lines of a lead but its last, each with the line break that ends it. */
  function MovedText(b: seq<Br>): string
    requires |b| >= 2
  {
    Spaces(b[0].pad) + b[0].note + PrintBrs(b[1..|b| - 1]) + b[|b| - 1].nl
  }

  /** Lines put above the last line of `head`. */
  function AboveText(head: string, b: seq<Br>): string {
    if |b| < 2 then head
    else Upto(head, LineStart(head, |head|)) + MovedText(b) + From(head, LineStart(head, |head|))
  }

  function KidRest(k: Kid): string {
    MarkText(k.mark) + k.gap + PrintBrs(k.drop) + PrintNode(k.node) + k.tail
  }

  lemma RestPrints(k: Kid)
    ensures PrintKid(k) == KidLead(k) + KidRest(k)
  {
    hide KidLead, MarkText, PrintBrs, PrintNode;
  }

  lemma NextLineAt(p: string, rest: string)
    requires LineEnd(rest)
    ensures NextLine(p + rest, |p|) == |p| + NextLine(rest, 0)
    ensures From(p + rest, NextLine(p + rest, |p|)) == From(rest, NextLine(rest, 0))
  {
    var text := p + rest;
    assert forall i | 0 <= i < |rest| :: text[|p| + i] == rest[i];
  }

  lemma FirstBr(brs: seq<Br>)
    requires brs != []
    ensures PrintBrs(brs) == brs[0].nl + (Spaces(brs[0].pad) + brs[0].note + PrintBrs(brs[1..]))
  {
    hide Spaces;
    assert PrintBr(brs[0]) + PrintBrs(brs[1..]) == brs[0].nl + (Spaces(brs[0].pad) + brs[0].note + PrintBrs(brs[1..]));
  }

  /** A cut line's lead merges with the lead that follows. */
  lemma CutMerge(a: seq<Br>, b: seq<Br>, r: string)
    requires a != [] && b != [] && LineBreak(b[0].nl)
    ensures CutText(a, PrintBrs(b) + r) == PrintBrs(Merge(a, b)) + r
  {
    hide PrintBrs, Spaces;
    var rest := PrintBrs(b) + r;
    var tail := Spaces(b[0].pad) + b[0].note + PrintBrs(b[1..]);
    FirstBr(b);
    assert rest == b[0].nl + (tail + r);
    DropBreak(b[0].nl, tail + r);
    var front, last := a[..|a| - 1], a[|a| - 1];
    var mid := [Br(last.nl, b[0].pad, b[0].note)];
    assert Merge(a, b) == front + (mid + b[1..]);
    PrintBrsConcat(front, mid + b[1..]);
    FirstBr(mid + b[1..]);
    assert (mid + b[1..])[1..] == b[1..];
    assert PrintBrs(front) + last.nl + (tail + r) == PrintBrs(front) + (last.nl + tail) + r;
  }

  lemma DropBreak(nl: string, r: string)
    requires LineBreak(nl)
    ensures From(nl + r, NextLine(nl + r, 0)) == r
  {
  }

  lemma CutEnd(a: seq<Br>)
    requires a != []
    ensures CutText(a, "") == PrintBrs(Merge(a, []))
  {
    hide PrintBrs;
    var front, last := a[..|a| - 1], a[|a| - 1];
    assert Merge(a, []) == front + [Br(last.nl, 0, "")];
    PrintBrsConcat(front, [Br(last.nl, 0, "")]);
    OneBr(last.nl, 0);
    NoSpaces(last.nl);
    assert PrintBrs(front) + last.nl + "" == PrintBrs(front) + last.nl;
  }

  /** Where the last line a lead opens starts. */
  lemma LeadLine(a: string, lead: seq<Br>, col: nat, s: string)
    requires Leads(lead, col) && Lacks(s, '\n')
    ensures LineStart(a + PrintBrs(lead) + s, |a + PrintBrs(lead) + s|)
            == |a + PrintBrs(lead[..|lead| - 1]) + lead[|lead| - 1].nl|
    ensures PrintBrs(lead) == PrintBrs(lead[..|lead| - 1]) + lead[|lead| - 1].nl + Spaces(col)
  {
    hide PrintBrs, Spaces, LineStart;
    var b := lead[|lead| - 1];
    assert b in lead;
    LastBr(lead);
    var front := a + PrintBrs(lead[..|lead| - 1]) + b.nl;
    assert a + PrintBrs(lead) + s == front + (Spaces(col) + s) + "";
    assert Lacks(Spaces(col) + s, '\n');
    assert (Spaces(col) + s)[..|Spaces(col) + s|] == Spaces(col) + s;
    LineStartAt(front, Spaces(col) + s, "", |Spaces(col) + s|);
  }

  /** Lines above the line a lead opens belong to the lead. */
  lemma AboveLead(a: string, lead: seq<Br>, col: nat, b: seq<Br>)
    requires Leads(lead, col) && |b| >= 2
    ensures AboveText(a + PrintBrs(lead), b) == a + PrintBrs(Above(lead, b))
  {
    hide PrintBrs, Spaces, LineStart, Merge;
    var last := lead[|lead| - 1];
    var head := a + PrintBrs(lead);
    LeadLine(a, lead, col, "");
    assert head + "" == head;
    var front := a + PrintBrs(lead[..|lead| - 1]) + last.nl;
    assert head == front + Spaces(col);
    Cut(front, Spaces(col));
    var body := b[..|b| - 1];
    MergeText(lead, body);
    PrintBrsConcat(Merge(lead, body), [Br(b[|b| - 1].nl, last.pad, "")]);
    OneBr(b[|b| - 1].nl, last.pad);
    assert body[1..] == b[1..|b| - 1];
    AboveGlue(a, PrintBrs(lead[..|lead| - 1]), last.nl, Spaces(b[0].pad), b[0].note, PrintBrs(b[1..|b| - 1]),
              b[|b| - 1].nl, Spaces(col));
  }

  lemma AboveGlue(a: string, front: string, nl: string, pad: string, note: string, mid: string, end: string, s: string)
    ensures (a + front + nl) + (pad + note + mid + end) + s == a + ((front + nl + (pad + note + mid)) + (end + s))
  {
  }

  lemma MergeText(a: seq<Br>, b: seq<Br>)
    requires a != [] && b != []
    ensures PrintBrs(Merge(a, b))
            == PrintBrs(a[..|a| - 1]) + a[|a| - 1].nl + (Spaces(b[0].pad) + b[0].note + PrintBrs(b[1..]))
  {
    hide PrintBrs, Spaces;
    var front, last := a[..|a| - 1], a[|a| - 1];
    var mid := [Br(last.nl, b[0].pad, b[0].note)];
    assert Merge(a, b) == front + (mid + b[1..]);
    PrintBrsConcat(front, mid + b[1..]);
    FirstBr(mid + b[1..]);
    assert (mid + b[1..])[1..] == b[1..];
    var tail := Spaces(b[0].pad) + b[0].note + PrintBrs(b[1..]);
    assert PrintBrs(front) + (last.nl + tail) == PrintBrs(front) + last.nl + tail;
  }

  /** Text without a line break after the head does not change where the lines go. */
  lemma AboveLater(head: string, s: string, b: seq<Br>)
    requires Lacks(s, '\n')
    ensures AboveText(head + s, b) == AboveText(head, b) + s
  {
    hide PrintBrs, Spaces, MovedText, LineStart;
    if |b| >= 2 {
      LineStartLater(head, s);
      var ls := LineStart(head, |head|);
      assert Upto(head + s, ls) == Upto(head, ls) && From(head + s, ls) == From(head, ls) + s;
      assert Upto(head, ls) + MovedText(b) + (From(head, ls) + s) == Upto(head, ls) + MovedText(b) + From(head, ls) + s;
    }
  }

  lemma LineStartLater(head: string, s: string)
    requires Lacks(s, '\n')
    ensures LineStart(head + s, |head + s|) == LineStart(head, |head|)
  {
    hide LineStart;
    var t := head + s;
    assert forall i | 0 <= i < |head| :: t[i] == head[i];
    assert forall i | |head| <= i < |t| :: t[i] == s[i - |head|] && t[i] != '\n';
  }

  /**
   A line cut out of the text, from the line's start through its break: the lead of the
   removed child stays up to its last break and the rest loses its first one.
   */
  lemma LineCut(text: string, a: string, lead: seq<Br>, col: nat, body: string, rest: string, j: nat, e: nat)
    requires text == a + PrintBrs(lead) + body + rest && Leads(lead, col) && LineEnd(rest)
    requires j <= |body| && Lacks(body[..j], '\n') && Eol(text, e) == |a + PrintBrs(lead) + body|
    ensures var at := |a + PrintBrs(lead)| + j;
            && Slice(text, LineStart(text, at), at) == Spaces(col) + body[..j]
            && Upto(text, LineStart(text, at)) + From(text, NextLine(text, Eol(text, e))) == a + CutText(lead, rest)
  {
    hide PrintBrs, Spaces, LineStart, Eol, NextLine, LineEnd, From, Upto, Slice;
    var front := PrintBrs(lead[..|lead| - 1]);
    var nl := lead[|lead| - 1].nl;
    var r := From(rest, NextLine(rest, 0));
    assert (a + front + nl) + r == a + (front + nl + r);
    LeadLine(a, lead, col, body[..j]);
    LineCutGlue(text, a, front, nl, Spaces(col), PrintBrs(lead), body, rest, j);
    LineStartPrefix(a + PrintBrs(lead) + body[..j], body[j..] + rest);
    NextLineAt(a + PrintBrs(lead) + body, rest);
  }

  lemma LineCutGlue(text: string, a: string, front: string, nl: string, pad: string, lead: string, body: string,
          rest: string, j: nat)
    requires text == a + lead + body + rest && lead == front + nl + pad && j <= |body|
    ensures text == (a + lead + body[..j]) + (body[j..] + rest)
    ensures Upto(text, |a + front + nl|) == a + front + nl
    ensures Slice(text, |a + front + nl|, |a + lead| + j) == pad + body[..j]
  {
    hide Slice;
    var head, cut, left := a + front + nl, pad + body[..j], body[j..] + rest;
    assert a + lead + body + rest == (a + lead + body[..j]) + (body[j..] + rest) by {
      assert body == body[..j] + body[j..];
    }
    assert a + (front + nl + pad) + body[..j] == (a + front + nl) + (pad + body[..j]);
    assert text == (head + cut) + left;
    assert text == head + (cut + left);
    Cut3(head, cut, left);
    Cut(head, cut + left);
  }

  // --------------------------------------------------------------- stripping

  lemma {:induction false} StrippedKeeps(s: string, i: nat, j: nat)
    requires i < |s| && j < |s| && !PySpace(s[i]) && !PySpace(s[j])
    ensures Stripped(s) != "" && (i != j ==> |Stripped(s)| >= 2)
    decreases |s|
  {
    hide PySpace;
    if PySpace(s[0]) {
      assert s[1..][i - 1] == s[i] && s[1..][j - 1] == s[j];
      StrippedKeeps(s[1..], i - 1, j - 1);
    } else if PySpace(s[|s| - 1]) {
      StrippedKeeps(s[..|s| - 1], i, j);
    }
  }

  lemma {:induction false} StrippedSpaces(s: string)
    requires AllSpaces(s)
    ensures Stripped(s) == ""
  {
    if s == "" {
    } else {
      StrippedSpaces(s[1..]);
    }
  }

  lemma {:induction false} StrippedDash(n: nat, gap: string)
    requires AllSpaces(gap)
    ensures Stripped(Spaces(n) + "-" + gap) == "-"
    decreases n + |gap|
  {
    hide Spaces;
    var s := Spaces(n) + "-" + gap;
    if n > 0 {
      assert s[1..] == Spaces(n - 1) + "-" + gap;
      StrippedDash(n - 1, gap);
    } else if gap != "" {
      assert s[..|s| - 1] == Spaces(0) + "-" + gap[..|gap| - 1];
      StrippedDash(0, gap[..|gap| - 1]);
    } else {
      assert s == "-";
    }
  }

  // ---------------------------------------------------------- one child gone

  /** Marks of one child of the collection at a site. */
  lemma KidMarks(text: string, pre: string, k: Kid, post: string, place: Place, m: CNode, i: nat)
    requires Site(text, pre, k, post, place, m) && k.node.Coll? && i < |k.node.kids|
    ensures m.CColl? && m.flow == k.node.flow && m.isMap == k.node.isMap && |m.value| == |k.node.kids|
    ensures var at := |pre + KidHead(k) + Open(k.node) + PrintKids(k.node.kids[..i])|;
            && m.value[i].key == KeyMark(k.node.kids[i], at)
            && Composed(text, k.node.kids[i].node, at + |KidHead(k.node.kids[i])|, m.value[i].value)
            && m.value[i].value.start == at + |KidHead(k.node.kids[i])|
  {
    hide PrintKid, PrintNode, KidHead, NodeOk, Composed, PrintKids, LineEnd, Column, KidIn, Open, KeyMark;
    var n := k.node;
    CollFacts(text, n, |pre + KidHead(k)|, m);
    assert |pre + KidHead(k) + Open(n) + PrintKids(n.kids[..i])| == KidAt(n, |pre + KidHead(k)|, i);
    MarkShape(text, n.kids[i].node, KidAt(n, |pre + KidHead(k)|, i) + |KidHead(n.kids[i])|, m.value[i].value);
  }

  /** The text around child `i` of a collection. */
  lemma AroundKid(text: string, pre: string, k: Kid, post: string, i: nat)
    requires text == pre + PrintKid(k) + post && k.node.Coll? && i < |k.node.kids|
    ensures var n := k.node;
            text == (pre + KidHead(k) + Open(n) + PrintKids(n.kids[..i])) + PrintKid(n.kids[i])
                    + (PrintKids(n.kids[i + 1..]) + (Close(n) + k.tail + post))
  {
    hide PrintKid, PrintNode, KidHead, PrintKids, Open, Close;
    var n := k.node;
    KidSplit(k);
    BlockSplit(n, i);
    var h := KidHead(k);
    var front := PrintKids(n.kids[..i]);
    var kid := PrintKid(n.kids[i]);
    var after := PrintKids(n.kids[i + 1..]);
    assert pre + (h + (Open(n) + front + kid + (after + Close(n))) + k.tail) + post
           == (pre + h + Open(n) + front) + kid + (after + (Close(n) + k.tail + post));
  }

  /** A child whose collection has other children: the text around stays. */
  lemma WithKidsPrints(pre: string, k: Kid, post: string, kids: seq<Kid>)
    requires k.node.Coll?
    ensures pre + PrintKid(WithKids(k, kids)) + post
            == (pre + KidHead(k) + Open(k.node)) + PrintKids(kids) + (Close(k.node) + k.tail + post)
    ensures KidRest(WithKids(k, kids)) + post
            == (MarkText(k.mark) + k.gap + PrintBrs(k.drop) + Open(k.node)) + PrintKids(kids)
               + (Close(k.node) + k.tail + post)
  {
    hide PrintKid, PrintKids, KidHead, MarkText, PrintBrs;
    var g := k.node.(kids := kids);
    SameBrackets(k.node, kids);
    NewNode(pre, k, post, g, k.tail);
    assert k.(node := g, tail := k.tail) == WithKids(k, kids);
    assert PrintNode(g) == Open(g) + PrintKids(kids) + Close(g);
    KidsTextGlue(pre + KidHead(k), Open(g), PrintKids(kids), Close(g), k.tail, post);
    KidsTextGlue(MarkText(k.mark) + k.gap + PrintBrs(k.drop), Open(g), PrintKids(kids), Close(g), k.tail, post);
  }

  lemma KidsTextGlue(h: string, open: string, kids: string, close: string, tail: string, post: string)
    ensures h + (open + kids + close) + tail + post == (h + open) + kids + (close + tail + post)
  {
  }

  /** The text cut at the start of a flow child, past its separator. */
  lemma FlowKidCut(text: string, pre: string, k: Kid, post: string, place: Place, m: CNode, i: nat)
    requires Site(text, pre, k, post, place, m) && k.node.Coll? && k.node.flow && i < |k.node.kids|
    ensures m.CColl? && |m.value| == |k.node.kids|
    ensures var kids, head, end := k.node.kids, pre + KidHead(k) + Open(k.node), Close(k.node) + k.tail + post;
            && KidLead(kids[i]) == kids[i].sep && (i > 0 ==> kids[i].lead == [])
            && Upto(text, KidStart(m.value[i])) == head + PrintKids(kids[..i]) + kids[i].sep
            && From(text, KidStart(m.value[i])) == KidRest(kids[i]) + (PrintKids(kids[i + 1..]) + end)
  {
    hide PrintKid, KidHead, NodeOk, Composed, PrintKids, LineEnd, Column, KidIn, Open, Close, KeyMark, Upto, From,
         KidLead, KidRest;
    var n, kids := k.node, k.node.kids;
    var head, end := pre + KidHead(k) + Open(n), Close(n) + k.tail + post;
    KidMarks(text, pre, k, post, place, m, i);
    FlowFacts(text, n, |pre + KidHead(k)|, m);
    StartAt(kids[i], i == 0, n.isMap, |head + PrintKids(kids[..i])|, m.value[i]);
    assert kids[i].lead == [] by { hide FlowBlank, Comma, ReadScalar, PrintNode; }
    AroundKid(text, pre, k, post, i);
    RestPrints(kids[i]);
    var a := head + PrintKids(kids[..i]);
    assert text == (a + kids[i].sep) + (KidRest(kids[i]) + (PrintKids(kids[i + 1..]) + end));
    Cut(a + kids[i].sep, KidRest(kids[i]) + (PrintKids(kids[i + 1..]) + end));
  }

  /** `_remove_flow`, for a child before the last. */
  lemma FlowMidPrints(text: string, pre: string, k: Kid, post: string, place: Place, m: CNode, i: nat)
    requires Site(text, pre, k, post, place, m) && k.node.Coll? && k.node.flow && i < |k.node.kids| - 1
    ensures m.CColl? && |m.value| == |k.node.kids|
    ensures var kids := k.node.kids;
            Upto(text, KidStart(m.value[i])) + From(text, KidStart(m.value[i + 1]))
            == pre + PrintKid(WithKids(k, kids[..i] + [kids[i + 1].(sep := kids[i].sep)] + kids[i + 2..])) + post
  {
    hide *;
    var n, kids := k.node, k.node.kids;
    FlowKidCut(text, pre, k, post, place, m, i);
    FlowKidCut(text, pre, k, post, place, m, i + 1);
    var follow := kids[i + 1].(sep := kids[i].sep);
    FollowRest(kids[i], kids[i + 1]);
    RestPrints(follow);
    WithKidsPrints(pre, k, post, kids[..i] + [follow] + kids[i + 2..]);
    PrintKidsConcat(kids[..i] + [follow], kids[i + 2..]);
    PrintKidsConcat(kids[..i], [follow]);
    OneKid(follow);
    FlowMidGlue(pre + KidHead(k) + Open(n), PrintKids(kids[..i]), kids[i].sep, KidRest(kids[i + 1]),
                PrintKids(kids[i + 2..]), Close(n) + k.tail + post);
  }

  lemma FlowMidGlue(head: string, front: string, sep: string, rest: string, after: string, end: string)
    ensures (head + front + sep) + (rest + (after + end)) == head + (front + (sep + rest) + after) + end
  {
  }

  /** A flow child starts after its separator. */
  lemma StartAt(k: Kid, first: bool, isMap: bool, at: nat, m: CKid)
    requires FlowKidOk(k, first, isMap) && m.key == KeyMark(k, at) && m.value.start == at + |KidHead(k)|
    ensures KidStart(m) == at + |k.sep| && KidLead(k) == k.sep
  {
    hide FlowBlank, Comma, ReadScalar, PrintNode, PrintBrs;
    EmptyBrs();
    assert KidLead(k) == k.sep + "";
    if !isMap { assert KidHead(k) == k.sep + "" + "" + "" + ""; }
  }

  lemma FollowRest(a: Kid, b: Kid)
    requires KidLead(a) == a.sep && KidLead(b) == b.sep && b.lead == []
    ensures var f := b.(sep := a.sep); KidLead(f) == a.sep && KidRest(f) == KidRest(b)
  {
    hide MarkText, PrintNode;
  }

  /** `_remove_flow`, for the last child. */
  lemma FlowLastPrints(text: string, pre: string, k: Kid, post: string, place: Place, m: CNode)
    requires Site(text, pre, k, post, place, m) && k.node.Coll? && k.node.flow && |k.node.kids| >= 2
    ensures m.CColl? && |m.value| == |k.node.kids|
    ensures var last := |k.node.kids| - 1;
            Upto(text, ContentEnd(text, m.value[last - 1].value)) + From(text, ContentEnd(text, m.value[last].value))
            == pre + PrintKid(WithKids(k, k.node.kids[..last])) + post
  {
    hide *;
    var n, kids, last := k.node, k.node.kids, |k.node.kids| - 1;
    var head := pre + KidHead(k) + Open(n);
    var end := Close(n) + k.tail + post;
    FlowKidEnd(text, pre, k, post, place, m, last - 1);
    FlowKidEnd(text, pre, k, post, place, m, last);
    assert kids[..last - 1 + 1] == kids[..last] && kids[..last + 1] == kids;
    assert kids[last + 1..] == [];
    NoKids();
    WithKidsPrints(pre, k, post, kids[..last]);
    assert "" + end == end;
  }

  /** Where a flow child's content ends, and the text on both sides of it. */
  lemma FlowKidEnd(text: string, pre: string, k: Kid, post: string, place: Place, m: CNode, i: nat)
    requires Site(text, pre, k, post, place, m) && k.node.Coll? && k.node.flow && i < |k.node.kids|
    ensures m.CColl? && |m.value| == |k.node.kids|
    ensures var at := ContentEnd(text, m.value[i].value);
            && Upto(text, at) == pre + KidHead(k) + Open(k.node) + PrintKids(k.node.kids[..i + 1])
            && From(text, at) == PrintKids(k.node.kids[i + 1..]) + (Close(k.node) + k.tail + post)
  {
    hide PrintKid, PrintNode, KidHead, NodeOk, Composed, PrintKids, LineEnd, Column, KidIn, Open, Close, KeyMark,
         Upto, From, KidLead, KidRest, ContentEnd, FlowKidOk, OneLine;
    var n, kids := k.node, k.node.kids;
    var kid := kids[i];
    var a := pre + KidHead(k) + Open(n) + PrintKids(kids[..i]);
    var end := PrintKids(kids[i + 1..]) + (Close(n) + k.tail + post);
    KidMarks(text, pre, k, post, place, m, i);
    FlowFacts(text, n, |pre + KidHead(k)|, m);
    PlainFlowKid(kid, i == 0, n.isMap);
    AroundKid(text, pre, k, post, i);
    KidSplit(kid);
    assert text == (a + KidHead(kid)) + PrintNode(kid.node)
           + end by { FlowEndGlue(a, KidHead(kid), PrintNode(kid.node), end); }
    ContentEndIn(text, a + KidHead(kid), kid.node, end, m.value[i].value);
    Cut(a + KidHead(kid) + PrintNode(kid.node), end);
    assert PrintKids(kids[..i + 1]) == PrintKids(kids[..i]) + PrintKid(kids[i]) by {
      hide PrintKid, PrintKids;
      assert kids[..i + 1] == kids[..i] + [kids[i]];
      PrintKidsConcat(kids[..i], [kids[i]]);
      OneKid(kids[i]);
    }
    var front := PrintKids(kids[..i]);
    var h := KidHead(kid);
    var p := PrintNode(kid.node);
    assert (pre + KidHead(k) + Open(n)) + front + h + p == (pre + KidHead(k) + Open(n)) + (front + (h + p + ""));
  }

  lemma FlowEndGlue(a: string, h: string, p: string, end: string)
    ensures a + (h + p + "") + end == (a + h) + p + end
  {
  }

  function SlotAt(m: CNode, i: nat): Slot
    requires m.CColl? && i < |m.value|
  {
    Slot(m, i, m.value[i].key, m.value[i].value)
  }

  /** A block child's first line up to its value, or its key. */
  function Prefix(k: Kid): nat {
    if k.mark.Key? then 0 else |MarkText(k.mark) + k.gap|
  }

  lemma PrefixOk(k: Kid, col: nat, first: bool, isMap: bool)
    requires BlockKidOk(k, col, first, isMap) && (!isMap ==> k.drop == [])
    ensures Prefix(k) <= |KidRest(k)| && Lacks(KidRest(k)[..Prefix(k)], '\n')
    ensures Stripped(Spaces(col) + KidRest(k)[..Prefix(k)]) == if isMap then "" else "-"
    ensures isMap <==> k.mark.Key?
    ensures !isMap ==> |KidHead(k)| == |KidLead(k)| + Prefix(k)
  {
    hide PrintNode, Leads, ReadScalar, KidLead;
    if isMap {
      assert KidRest(k)[..0] == "";
      assert Spaces(col) + "" == Spaces(col);
      StrippedSpaces(Spaces(col));
    } else {
      EmptyBrs();
      assert KidRest(k)[..Prefix(k)] == "-" + k.gap;
      assert AllSpaces(k.gap);
      assert Spaces(col) + ("-" + k.gap) == Spaces(col) + "-" + k.gap;
      StrippedDash(col, k.gap);
    }
  }

  /** A block child that stands on its own line goes with its line. */
  lemma OwnLine(text: string, pre: string, k: Kid, post: string, place: Place, m: CNode, holder: Option<Slot>, i: nat,
          a: string, lead: seq<Br>, rest: string)
    requires Site(text, pre, k, post, place, m) && k.node.Coll? && !k.node.flow && i < |k.node.kids|
             && |k.node.kids| >= 2
    requires text == a + PrintBrs(lead) + KidRest(k.node.kids[i]) + rest && Leads(lead, k.node.col) && LineEnd(rest)
    requires |a + PrintBrs(lead)| == |pre + KidHead(k) + PrintKids(k.node.kids[..i]) + KidLead(k.node.kids[i])|
    requires !k.node.isMap ==> k.node.kids[i].drop == []
    ensures m.CColl? && i < |m.value| && RemoveSlot(text, holder, SlotAt(m, i)) == Ok(a + CutText(lead, rest))
  {
    hide PrintKid, PrintNode, KidHead, NodeOk, Composed, PrintKids, LineEnd, Column, KidIn, Open, Close, KeyMark, Upto,
         From, KidLead, KidRest, ContentEnd, PrintBrs, Leads, CutText, LineStart, Eol, Slice, NextLine, BlockKidOk,
         Stripped, Prefix, Spaces, RemoveFlow, RemoveFirstKey;
    var n, kid := k.node, k.node.kids[i];
    var front := pre + KidHead(k) + PrintKids(n.kids[..i]);
    KidMarks(text, pre, k, post, place, m, i);
    BlockFacts(text, n, |pre + KidHead(k)|, m);
    assert pre + KidHead(k) + Open(n) + PrintKids(n.kids[..i])
           == front by { assert pre + KidHead(k) + "" == pre + KidHead(k); }
    AroundKid(text, pre, k, post, i);
    var after := PrintKids(n.kids[i + 1..]) + (Close(n) + k.tail + post);
    RestPrints(kid);
    assert rest == after by { SameCut(text, front, PrintKid(kid), after, a + PrintBrs(lead), KidRest(kid), rest); }
    BlockLineEnd(text, front, kid, after, m.value[i].value, n.col, i == 0, n.isMap);
    PrefixOk(kid, n.col, i == 0, n.isMap);
    var e := ContentEnd(text, m.value[i].value);
    assert |front + PrintKid(kid)| == |a + PrintBrs(lead) + KidRest(kid)|;
    LineCut(text, a, lead, n.col, KidRest(kid), rest, Prefix(kid), e);
    KeyStart(kid, |front|);
  }

  lemma SameCut(text: string, f: string, kid: string, after: string, b: string, body: string, rest: string)
    requires text == f + kid + after && text == b + body + rest && |f + kid| == |b + body|
    ensures rest == after
  {
    assert after == text[|f + kid|..] && rest == text[|b + body|..];
  }

  lemma KeyStart(k: Kid, at: nat)
    ensures k.mark.Key? ==> KeyMark(k, at).Some? && KeyMark(k, at).value.start == at + |KidLead(k)| && Prefix(k) == 0
    ensures !k.mark.Key? ==> KeyMark(k, at) == None
  {
    hide PrintBrs;
  }

  /** The end of a block collection's site: nothing of its own follows its last child. */
  lemma BlockTail(k: Kid, place: Place)
    requires KidIn(place, k) && NodeOk(k.node) && k.node.Coll? && !k.node.flow
    ensures Close(k.node) == "" && Open(k.node) == "" && k.tail == "" && !InFlowPlace(place)
  {
    hide Leads, BlockKidOk, FlowKidOk, Follows, PrintNode, FlowBlank, NodeOk, KidIn, StartCol;
    BlockPlace(k, place);
    NodeClosed(k.node);
    NotFlow(k, place);
  }

  lemma NodeClosed(n: Node)
    requires n.Coll? && !n.flow && NodeOk(n)
    ensures n.close == "" && n.kids != []
  {
    hide BlockKidOk, Follows;
  }

  lemma NotFlow(k: Kid, place: Place)
    requires KidIn(place, k) && k.node.Coll? && !k.node.flow
    ensures !InFlowPlace(place)
  {
    hide Leads, Placed, PrintNode, FlowBlank, Comma, ReadScalar;
  }

  lemma RestIsEnd(n: Node, i: nat, post: string)
    requires n.Coll? && !n.flow && NodeOk(n) && i < |n.kids| && LineEnd(post)
    ensures LineEnd(PrintKids(n.kids[i + 1..]) + post)
    ensures i + 1 < |n.kids| ==>
              var next := n.kids[i + 1];
              && next.lead != [] && LineBreak(next.lead[0].nl) && next.sep == "" && Leads(next.lead, n.col)
              && PrintKids(n.kids[i + 1..]) + post
                 == PrintBrs(next.lead) + (KidRest(next) + (PrintKids(n.kids[i + 2..]) + post))
  {
    hide PrintKid, PrintNode, PrintKids, LineEnd, BlockKidOk, Leads, PrintBrs, KidRest, KidLead, Follows;
    if i + 1 < |n.kids| {
      var next := n.kids[i + 1];
      assert BlockKidOk(next, n.col, false, n.isMap);
      NextLead(next, n.col, n.isMap);
      NextLineEnd(n.kids[i + 1..], n.col, n.isMap, post);
      RestPrints(next);
      LaterLead(next);
      assert n.kids[i + 1..] == [next] + n.kids[i + 2..];
      KidsCons(next, n.kids[i + 2..]);
      RestGlue(PrintBrs(next.lead), KidRest(next), PrintKids(n.kids[i + 2..]), post);
    } else {
      NoKids();
      assert n.kids[i + 1..] == [];
      assert "" + post == post;
    }
  }

  lemma RestGlue(lead: string, rest: string, more: string, post: string)
    ensures ((lead + rest) + more) + post == lead + (rest + (more + post))
  {
  }

  lemma NextLead(k: Kid, col: nat, isMap: bool)
    requires BlockKidOk(k, col, false, isMap)
    ensures k.sep == "" && Leads(k.lead, col) && k.lead != [] && LineBreak(k.lead[0].nl)
  {
    hide Placed, ReadScalar;
    assert k.lead[0] in k.lead;
  }

  /** A child after the first goes, with the lines above it joined to what follows. */
  lemma LaterPrints(text: string, pre: string, k: Kid, post: string, place: Place, m: CNode, holder: Option<Slot>,
          i: nat)
    requires Site(text, pre, k, post, place, m) && k.node.Coll? && !k.node.flow && 0 < i < |k.node.kids|
    requires !k.node.isMap ==> k.node.kids[i].drop == []
    ensures m.CColl? && i < |m.value|
    ensures var kids := k.node.kids;
            var lead := kids[i].lead;
            lead != [] &&
            RemoveSlot(text, holder, SlotAt(m, i)) ==
            if i < |kids| - 1 then
              Ok(pre + PrintKid(WithKids(k,
                 kids[..i] + [kids[i + 1].(lead := Merge(lead, kids[i + 1].lead))] + kids[i + 2..])) + post)
            else Ok(pre + PrintKid(WithKids(k, kids[..i])) + CutText(lead, post))
  {
    hide PrintKid, PrintNode, KidHead, NodeOk, Composed, PrintKids, Column, Open, Close, KeyMark, KidLead, KidRest,
         KidIn, LineEnd, PrintBrs, Leads, CutText, RemoveSlot, SlotAt, Merge, BlockKidOk;
    var n, kids := k.node, k.node.kids;
    var kid := kids[i];
    BlockTail(k, place);
    KidMarks(text, pre, k, post, place, m, i);
    BlockFacts(text, n, |pre + KidHead(k)|, m);
    NextLead(kid, n.col, n.isMap);
    AroundKid(text, pre, k, post, i);
    RestPrints(kid);
    LaterLead(kid);
    RestIsEnd(n, i, post);
    var a := pre + KidHead(k) + PrintKids(kids[..i]);
    var rest := PrintKids(kids[i + 1..]) + post;
    var h := pre + KidHead(k);
    var front := PrintKids(kids[..i]);
    var after := PrintKids(kids[i + 1..]);
    assert (h + "" + front) + (PrintBrs(kid.lead) + KidRest(kid)) + (after + ("" + "" + post))
           == (h + front) + PrintBrs(kid.lead) + KidRest(kid) + (after + post);
    OwnLine(text, pre, k, post, place, m, holder, i, a, kid.lead, rest);
    if i < |kids| - 1 {
      var next := kids[i + 1];
      var follow := next.(lead := Merge(kid.lead, next.lead));
      var tail := KidRest(next) + (PrintKids(kids[i + 2..]) + post);
      CutMerge(kid.lead, next.lead, tail);
      var left := kids[..i] + [follow] + kids[i + 2..];
      WithKidsPrints(pre, k, post, left);
      PrintKidsConcat(kids[..i] + [follow], kids[i + 2..]);
      PrintKidsConcat(kids[..i], [follow]);
      OneKid(follow);
      RestPrints(follow);
      LaterLead(follow);
      SameRest(next, follow);
      LeftGlue(pre + KidHead(k), PrintKids(kids[..i]), PrintBrs(follow.lead), KidRest(next), PrintKids(kids[i + 2..]),
               post);
    } else {
      assert kids[i + 1..] == [];
      NoKids();
      assert "" + post == post;
      WithKidsPrints(pre, k, "", kids[..i]);
      LastGlue(pre, PrintKid(WithKids(k, kids[..i])), KidHead(k), PrintKids(kids[..i]), CutText(kid.lead, post));
    }
  }

  lemma LeftGlue(h: string, front: string, lead: string, rest: string, after: string, post: string)
    ensures (h + "") + (front + (lead + rest) + after) + ("" + "" + post)
            == (h + front) + (lead + (rest + (after + post)))
  {
  }

  lemma LastGlue(pre: string, kid: string, h: string, kids: string, cut: string)
    requires pre + kid + "" == (pre + h + "") + kids + ("" + "" + "")
    ensures pre + kid + cut == (pre + h + kids) + cut
  {
    assert pre + kid == pre + kid + "" && (pre + h + "") + kids + ("" + "" + "") == pre + h + kids;
  }

  lemma SameRest(a: Kid, b: Kid)
    requires b == a.(lead := b.lead)
    ensures KidRest(a) == KidRest(b)
  {
    hide PrintNode, PrintBrs, MarkText;
  }

  /** A collection without its first child, the second now starting where the first did. */
  function FirstGone(k: Kid): Kid
    requires k.node.Coll? && |k.node.kids| >= 2
  {
    WithKids(k, [k.node.kids[1].(lead := [])] + k.node.kids[2..])
  }

  lemma FirstGoneText(k: Kid, post: string)
    requires k.node.Coll? && !k.node.flow && k.node.close == "" && |k.node.kids| >= 2 && k.node.kids[1].sep == ""
             && k.tail == ""
    ensures PrintNode(FirstGone(k).node) + k.tail + post
            == KidRest(k.node.kids[1]) + (PrintKids(k.node.kids[2..]) + post)
  {
    hide PrintKid, PrintKids, KidRest, KidLead, PrintBrs, PrintNode;
    var follow := k.node.kids[1].(lead := []);
    BareBlock(FirstGone(k).node);
    KidsCons(follow, k.node.kids[2..]);
    RestPrints(follow);
    LaterLead(follow);
    EmptyBrs();
    SameRest(k.node.kids[1], follow);
    var r := KidRest(k.node.kids[1]);
    assert (("" + r) + PrintKids(k.node.kids[2..])) + "" + post == r + (PrintKids(k.node.kids[2..]) + post);
  }

  lemma FirstText(text: string, pre: string, k: Kid, post: string, place: Place)
    requires text == pre + PrintKid(k) + post && KidIn(place, k) && NodeOk(k.node) && k.node.Coll? && !k.node.flow
             && LineEnd(post)
    ensures KidLead(k.node.kids[0]) == "" && PrintKids(k.node.kids[..0]) == ""
    ensures text == (pre + KidLead(k) + MarkText(k.mark) + k.gap) + PrintBrs(k.drop) + KidRest(k.node.kids[0])
                    + (PrintKids(k.node.kids[1..]) + post)
    ensures pre + KidHead(k) == (pre + KidLead(k) + MarkText(k.mark) + k.gap) + PrintBrs(k.drop)
  {
    hide PrintKid, PrintNode, KidHead, PrintKids, LineEnd, KidIn, KidLead, KidRest, PrintBrs, MarkText;
    var n := k.node;
    BlockTail(k, place);
    assert n.kids != [] && BlockKidOk(n.kids[0], n.col, true, n.isMap) by { hide BlockKidOk, Follows; }
    FirstKid(n.kids[0], n.col, n.isMap);
    AroundKid(text, pre, k, post, 0);
    assert n.kids[..0] == [];
    NoKids();
    RestPrints(n.kids[0]);
    HeadSplit(k);
    var lead := KidLead(k);
    var mark := MarkText(k.mark);
    var drop := PrintBrs(k.drop);
    var rest := KidRest(n.kids[0]);
    var after := PrintKids(n.kids[1..]);
    assert (pre + (lead + mark + k.gap + drop) + "" + "") + ("" + rest) + (after + ("" + "" + post))
           == (pre + lead + mark + k.gap) + drop + rest + (after + post);
    assert pre + (lead + mark + k.gap + drop) == (pre + lead + mark + k.gap) + drop;
  }

  lemma HeadSplit(k: Kid)
    ensures KidHead(k) == KidLead(k) + MarkText(k.mark) + k.gap + PrintBrs(k.drop)
  {
  }

  /** The first child goes, where its line is its own: the second takes its place. */
  lemma FirstPrints(text: string, pre: string, k: Kid, post: string, place: Place, m: CNode, holder: Option<Slot>)
    requires Site(text, pre, k, post, place, m) && k.node.Coll? && !k.node.flow && |k.node.kids| >= 2 && k.drop != []
    requires !k.node.isMap ==> k.node.kids[0].drop == []
    ensures m.CColl? && 0 < |m.value|
    ensures RemoveSlot(text, holder, SlotAt(m, 0))
            == Ok(pre + PrintKid(FirstGone(k).(drop := Merge(k.drop, k.node.kids[1].lead))) + post)
  {
    hide PrintKid, PrintNode, KidHead, NodeOk, Composed, PrintKids, Column, Open, Close, KeyMark, KidLead, KidRest,
         KidIn, LineEnd, PrintBrs, Leads, CutText, RemoveSlot, SlotAt, Merge, BlockKidOk, FirstGone, StartCol, MarkText;
    var n, kids := k.node, k.node.kids;
    BlockTail(k, place);
    NodeClosed(n);
    BlockPlace(k, place);
    KidMarks(text, pre, k, post, place, m, 0);
    FirstText(text, pre, k, post, place);
    RestIsEnd(n, 0, post);
    var a := pre + KidLead(k) + MarkText(k.mark) + k.gap;
    var rest := PrintKids(kids[1..]) + post;
    assert pre + KidHead(k) + PrintKids(kids[..0]) + KidLead(kids[0]) == a + PrintBrs(k.drop) by {
      assert pre + KidHead(k) + "" + "" == pre + KidHead(k);
    }
    OwnLine(text, pre, k, post, place, m, holder, 0, a, k.drop, rest);
    var next := kids[1];
    CutMerge(k.drop, next.lead, KidRest(next) + (PrintKids(kids[2..]) + post));
    FirstGoneText(k, post);
    var left := FirstGone(k).(drop := Merge(k.drop, next.lead));
    FirstGoneShape(k);
    NewRest(pre, k, post, left);
    DropGlue(pre + KidLead(k) + MarkText(k.mark), k.gap, PrintBrs(left.drop), PrintNode(left.node), post,
             KidRest(next) + (PrintKids(kids[2..]) + post));
  }

  lemma FirstGoneShape(k: Kid)
    requires k.node.Coll? && |k.node.kids| >= 2
    ensures var g := FirstGone(k); SameStart(k, g) && g.gap == k.gap && g.drop == k.drop && g.tail == k.tail
  {
  }

  lemma DropGlue(m: string, gap: string, drop: string, node: string, post: string, x: string)
    requires node + "" + post == x
    ensures m + (gap + (drop + (node + ("" + post)))) == (m + gap) + (drop + x)
  {
    assert node + ("" + post) == node + "" + post;
  }

  /** The document's first line goes: the lines after it move up. */
  lemma HeadPrints(text: string, pre: string, k: Kid, post: string, m: CNode, holder: Option<Slot>)
    requires Site(text, pre, k, post, Root, m) && k.node.Coll? && !k.node.flow && |k.node.kids| >= 2 && k.drop == []
    requires !k.node.isMap ==> k.node.kids[0].drop == []
    ensures m.CColl? && 0 < |m.value| && k.node.kids[1].lead != []
    ensures RemoveSlot(text, holder, SlotAt(m, 0))
            == Ok(pre + PrintKid(HeadCut(FirstGone(k), k.node.kids[1].lead)) + post)
  {
    hide PrintKid, PrintNode, KidHead, NodeOk, Composed, PrintKids, Column, Open, Close, KeyMark, KidLead, KidRest,
         LineEnd, PrintBrs, Leads, CutText, BlockKidOk, FirstGone, StartCol, Prefix, Stripped, ContentEnd, Eol,
         NextLine, LineStart, Upto, From, Slice, RemoveFlow, RemoveFirstKey, Spaces;
    var n, kids := k.node, k.node.kids;
    BlockTail(k, Root);
    NodeClosed(n);
    KidMarks(text, pre, k, post, Root, m, 0);
    FirstText(text, pre, k, post, Root);
    RestIsEnd(n, 0, post);
    BlockFacts(text, n, |pre + KidHead(k)|, m);
    var kid, next := kids[0], kids[1];
    var rest := PrintKids(kids[1..]) + post;
    EmptyBrs();
    RootHead(k);
    assert pre + KidHead(k) == k.gap && text == k.gap + KidRest(kid) + rest by { HeadGlue(k.gap, KidRest(kid), rest); }
    RestPrints(kid);
    assert PrintKid(kid) == KidRest(kid);
    PrefixOk(kid, n.col, true, n.isMap);
    assert k.gap == Spaces(|k.gap|);
    assert |k.gap| == n.col by { RootColumn(k); }
    BlockLineEnd(text, k.gap, kid, rest, m.value[0].value, n.col, true, n.isMap);
    HeadLine(text, k.gap, KidRest(kid), rest, Prefix(kid));
    KeyStart(kid, |k.gap|);
    assert pre + KidHead(k) + Open(n) + PrintKids(kids[..0]) == k.gap;
    FirstBr(next.lead);
    var x := KidRest(next) + (PrintKids(kids[2..]) + post);
    assert From(PrintBrs(next.lead) + x, NextLine(PrintBrs(next.lead) + x, 0))
           == Spaces(next.lead[0].pad) + next.lead[0].note + (PrintBrs(next.lead[1..]) + x) by {
      hide PrintBrs, Spaces, From, NextLine;
      FirstBr(next.lead);
      var r := Spaces(next.lead[0].pad) + next.lead[0].note + (PrintBrs(next.lead[1..]) + x);
      assert PrintBrs(next.lead) + x == next.lead[0].nl + r;
      DropBreak(next.lead[0].nl, r);
    }
    var left := HeadCut(FirstGone(k), next.lead);
    FirstGoneText(k, post);
    FirstGoneShape(k);
    NewRest(pre, k, post, left);
    var first := Spaces(next.lead[0].pad) + next.lead[0].note;
    var drop := PrintBrs(next.lead[1..]);
    var node := PrintNode(left.node);
    assert ("" + "" + "") + (first + (drop + (node + ("" + post)))) == "" + (first + (drop + x)) by {
      assert node + ("" + post) == node + "" + post;
    }
  }

  lemma RootHead(k: Kid)
    requires RootOk(k)
    ensures KidLead(k) == "" && MarkText(k.mark) == ""
    ensures k.drop == [] ==> AllSpaces(k.gap)
  {
    hide Leads, PrintNode;
    EmptyBrs();
  }

  lemma RootColumn(k: Kid)
    requires RootOk(k) && k.drop == [] && k.node.Coll? && !k.node.flow
    ensures k.node.col == |k.gap|
  {
    hide Leads, PrintNode;
  }

  lemma HeadGlue(gap: string, kid: string, rest: string)
    ensures ("" + "" + "" + gap) + "" == gap
    ensures ("" + "" + "" + gap) + "" + kid + rest == gap + kid + rest
    ensures gap + "" + "" == gap
  {
  }

  lemma HeadLine(text: string, gap: string, body: string, rest: string, j: nat)
    requires text == gap + body + rest && AllSpaces(gap) && j <= |body| && Lacks(body[..j], '\n') && LineEnd(rest)
    ensures var at := |gap| + j;
            && LineStart(text, at) == 0 && Slice(text, 0, at) == gap + body[..j] && Upto(text, 0) == ""
            && From(text, NextLine(text, |gap + body|)) == From(rest, NextLine(rest, 0))
  {
    hide LineStart, NextLine, LineEnd, Slice, Upto, From;
    NextLineAt(gap + body, rest);
    assert body == body[..j] + body[j..];
    assert text == "" + (gap + body[..j]) + (body[j..] + rest);
    Cut3("", gap + body[..j], body[j..] + rest);
    assert Lacks(gap + body[..j], '\n');
    assert (gap + body[..j])[..|gap| + j] == gap + body[..j];
    LineStartAt("", gap + body[..j], body[j..] + rest, |gap| + j);
    assert text == "" + text;
    Cut("", text);
  }

  // ----------------------------------------------- the first key of an item

  /** The dash line of a compact item, up to its first key or inner dash. */
  lemma CompactLine(head: string, gap: string, rest: string)
    requires AllSpaces(gap)
    ensures var h := head + "-" + gap;
            && LineStart(h + rest, |h|) == LineStart(head, |head|)
            && Slice(h + rest, LineStart(head, |head|), |h|) == From(head, LineStart(head, |head|)) + "-" + gap
            && Upto(h + rest, LineStart(head, |head|)) == Upto(head, LineStart(head, |head|))
  {
    hide LineStart, Slice;
    var s := "-" + gap;
    var h := head + "-" + gap;
    assert h == head + s && Lacks(s, '\n');
    LineStartLater(head, s);
    LineStartPrefix(h, rest);
    var ls := LineStart(head, |head|);
    assert head == Upto(head, ls) + From(head, ls);
    assert h + rest == Upto(head, ls) + (From(head, ls) + "-" + gap) + rest;
    Cut3(Upto(head, ls), From(head, ls) + "-" + gap, rest);
    assert h + rest == Upto(head, ls) + ((From(head, ls) + "-" + gap) + rest);
    Cut(Upto(head, ls), (From(head, ls) + "-" + gap) + rest);
  }

  /** The lines between two keys, without the second one's indentation. */
  lemma BetweenLines(p: string, lead: seq<Br>, col: nat, x: string)
    requires Leads(lead, col) && LineEnd(PrintBrs(lead) + x)
    ensures var text := p + PrintBrs(lead) + x;
            Slice(text, NextLine(text, |p|), LineStart(text, |p + PrintBrs(lead)|))
            == if |lead| < 2 then "" else MovedText(lead)
  {
    hide PrintBrs, Spaces, LineStart, NextLine, LineEnd, Slice, Leads, MovedText;
    var text := p + PrintBrs(lead) + x;
    LeadBreaks(lead, col);
    LeadLine(p, lead, col, "");
    assert p + PrintBrs(lead) + "" == p + PrintBrs(lead);
    LineStartPrefix(p + PrintBrs(lead), x);
    assert text == p + (PrintBrs(lead) + x);
    NextLineAt(p, PrintBrs(lead) + x);
    BreakLength(lead, x);
    var front := PrintBrs(lead[..|lead| - 1]) + lead[|lead| - 1].nl;
    assert p + PrintBrs(lead[..|lead| - 1]) + lead[|lead| - 1].nl == p + front;
    LeadFront(lead, col);
    BetweenGlue(text, p, lead[0].nl, if |lead| < 2 then "" else MovedText(lead), Spaces(col) + x);
    assert text == p + front + (Spaces(col) + x);
  }

  lemma LeadFront(lead: seq<Br>, col: nat)
    requires Leads(lead, col)
    ensures PrintBrs(lead[..|lead| - 1]) + lead[|lead| - 1].nl == lead[0].nl + if |lead| < 2 then ""
            else MovedText(lead)
  {
    hide PrintBrs, Spaces;
    var front := lead[..|lead| - 1];
    if |lead| < 2 {
      EmptyBrs();
      assert front == [];
      assert "" + lead[0].nl == lead[0].nl + "";
    } else {
      FirstBr(front);
      assert front[1..] == lead[1..|lead| - 1];
      var nl := lead[0].nl;
      var first := Spaces(lead[0].pad) + lead[0].note;
      var mid := PrintBrs(lead[1..|lead| - 1]);
      var last := lead[|lead| - 1].nl;
      assert nl + (first + mid) + last == nl + (first + mid + last);
    }
  }

  lemma BetweenGlue(text: string, p: string, nl: string, moved: string, rest: string)
    requires text == p + (nl + moved) + rest
    ensures Slice(text, |p| + |nl|, |p + (nl + moved)|) == moved
  {
    assert text == (p + nl) + moved + rest;
    Cut3(p + nl, moved, rest);
  }

  lemma LeadBreaks(lead: seq<Br>, col: nat)
    requires Leads(lead, col)
    ensures lead != [] && LineBreak(lead[0].nl)
  {
    assert lead[0] in lead;
  }

  lemma BreakLength(lead: seq<Br>, x: string)
    requires lead != [] && LineBreak(lead[0].nl)
    ensures NextLine(PrintBrs(lead) + x, 0) == |lead[0].nl|
  {
    hide PrintBrs, Spaces;
    FirstBr(lead);
    var r := Spaces(lead[0].pad) + lead[0].note + (PrintBrs(lead[1..]) + x);
    assert PrintBrs(lead) + x == lead[0].nl + r;
  }

  /** `_remove_first_key`: the next key moves up after the dash, the lines between above the item. */
  lemma CompactPrints(text: string, pre: string, k: Kid, post: string, place: Place, m: CNode, holder: Option<Slot>)
    requires Site(text, pre, k, post, place, m) && k.node.Coll? && !k.node.flow && k.node.isMap && |k.node.kids| >= 2
    requires k.drop == [] && place.Child?
    ensures m.CColl? && 0 < |m.value|
    ensures var above := if |k.node.kids[1].lead| <= 1 then [] else k.node.kids[1].lead;
            RemoveSlot(text, holder, SlotAt(m, 0))
                       == Ok(AboveText(pre + KidLead(k), above) + KidRest(FirstGone(k)) + post)
  {
    hide PrintKid, PrintNode, KidHead, NodeOk, Composed, PrintKids, Column, Open, Close, KeyMark, KidLead, KidRest,
         LineEnd, KidIn, PrintBrs, Leads, CutText, BlockKidOk, FirstGone, StartCol, Prefix, Stripped, ContentEnd, Eol,
         NextLine, LineStart, Upto, From, Slice, RemoveFlow, AboveText, MovedText;
    var n, kids := k.node, k.node.kids;
    var kid, next := kids[0], kids[1];
    BlockTail(k, place);
    NodeClosed(n);
    DashPlace(k, place);
    KidMarks(text, pre, k, post, place, m, 0);
    KidMarks(text, pre, k, post, place, m, 1);
    FirstText(text, pre, k, post, place);
    RestIsEnd(n, 0, post);
    BlockFacts(text, n, |pre + KidHead(k)|, m);
    EmptyBrs();
    var head := pre + KidLead(k);
    var h := head + "-" + k.gap;
    var rest := PrintKids(kids[1..]) + post;
    assert pre + KidHead(k) == h && text == h + KidRest(kid) + rest by { CompactGlue(head, k.gap, KidRest(kid), rest); }
    RestPrints(kid);
    assert PrintKid(kid) == KidRest(kid);
    BlockLineEnd(text, h, kid, rest, m.value[0].value, n.col, true, n.isMap);
    KeyOkKid(kid, n.col, true);
    KeyOkKid(next, n.col, false);
    KeyStart(kid, |h|);
    assert h + "" + PrintKids(kids[..0]) == h;
    assert text == h + (KidRest(kid) + rest);
    CompactLine(head, k.gap, KidRest(kid) + rest);
    // A dash on the line is no white space.
    var before := From(head, LineStart(head, |head|));
    assert Stripped(before + "-" + k.gap) != "" by {
      hide Stripped;
      var s := before + "-" + k.gap;
      assert s[|before|] == '-';
      StrippedKeeps(s, |before|, |before|);
    }
    // where the next key stands
    assert kids[..1] == [kid];
    OneKid(kid);
    LaterLead(next);
    KeyStart(next, |h + KidRest(kid)|);
    assert pre + KidHead(k) + Open(n) + PrintKids(kids[..1]) == h + KidRest(kid);
    var x := KidRest(next) + (PrintKids(kids[2..]) + post);
    assert text == (h + KidRest(kid)) + PrintBrs(next.lead) + x;
    BetweenLines(h + KidRest(kid), next.lead, n.col, x);
    assert text == (h + KidRest(kid) + PrintBrs(next.lead)) + x;
    Cut(h + KidRest(kid) + PrintBrs(next.lead), x);
    FirstGoneText(k, post);
    FirstGoneShape(k);
    RestOf(FirstGone(k));
    CompactResult(head, k, next, x, post);
  }

  lemma CompactGlue(head: string, gap: string, kid: string, rest: string)
    ensures (head + "-" + gap) + "" == head + "-" + gap
    ensures (head + "-" + gap) + "" + kid + rest == (head + "-" + gap) + kid + rest
  {
  }

  lemma RestOf(k: Kid)
    ensures KidRest(k) == MarkText(k.mark) + k.gap + PrintBrs(k.drop) + PrintNode(k.node) + k.tail
  {
  }

  lemma CompactResult(head: string, k: Kid, next: Kid, x: string, post: string)
    requires k.node.Coll? && |k.node.kids| >= 2 && next == k.node.kids[1] && k.mark.Dash? && k.drop == []
             && k.tail == ""
    requires PrintNode(FirstGone(k).node) + k.tail + post == x
    ensures var ls := LineStart(head, |head|);
            var moved := if |next.lead| < 2 then "" else MovedText(next.lead);
            Upto(head, ls) + moved + (From(head, ls) + "-" + k.gap) + x
            == AboveText(head, if |next.lead| <= 1 then [] else next.lead) + KidRest(FirstGone(k)) + post
  {
    hide PrintNode, LineStart, MovedText, PrintBrs, KidRest, AboveText, FirstGone, Upto, From;
    FirstGoneShape(k);
    EmptyBrs();
    var ls := LineStart(head, |head|);
    var g := FirstGone(k);
    RestOf(g);
    assert KidRest(g) == "-" + g.gap + "" + PrintNode(g.node) + "" by {
      hide PrintNode;
      EmptyBrs();
    }
    var lead := next.lead;
    if |lead| < 2 {
      NothingAbove(head);
      CompactGlue2(Upto(head, ls), "", From(head, ls), k.gap, PrintNode(g.node), x, post);
      CutAt(head, ls);
    } else {
      CompactGlue2(Upto(head, ls), MovedText(lead), From(head, ls), k.gap, PrintNode(g.node), x, post);
      MovedAbove(head, lead);
    }
  }

  lemma NothingAbove(head: string)
    ensures AboveText(head, []) == head
  {
  }

  lemma MovedAbove(head: string, b: seq<Br>)
    requires |b| >= 2
    ensures AboveText(head, b)
            == Upto(head, LineStart(head, |head|)) + MovedText(b) + From(head, LineStart(head, |head|))
  {
    hide MovedText, LineStart;
  }

  lemma CutAt(s: string, i: nat)
    requires i <= |s|
    ensures s == Upto(s, i) + From(s, i)
  {
  }

  lemma CompactGlue2(u: string, moved: string, f: string, gap: string, node: string, x: string, post: string)
    requires node + "" + post == x
    ensures u + moved + (f + "-" + gap) + x == (u + moved + f) + ("-" + gap + "" + node + "") + post
    ensures u + "" + f == u + f
  {
    assert node + "" + post == node + post;
  }

  lemma DashPlace(k: Kid, place: Place)
    requires KidIn(place, k) && k.node.Coll? && !k.node.flow && place.Child? && k.drop == []
    ensures k.mark.Dash? && AllSpaces(k.gap) && k.tail == ""
  {
    hide Leads, PrintNode, FlowBlank, Comma, ReadScalar;
  }

  lemma KeyOkKid(k: Kid, col: nat, first: bool)
    requires BlockKidOk(k, col, first, true)
    ensures k.mark.Key? && k.sep == "" && (!first ==> Leads(k.lead, col))
  {
    hide Placed, ReadScalar, Leads;
  }

  lemma ItemMark(k: Kid, col: nat, first: bool)
    requires BlockKidOk(k, col, first, false)
    ensures k.mark.Dash? && MarkText(k.mark) == "-" && (k.drop == [] ==> AllSpaces(k.gap))
  {
    hide Leads, ReadScalar, PrintNode;
  }

  /** Two dashes on one line, or a value on a line of its own: the item is refused. */
  lemma ItemRefused(text: string, pre: string, k: Kid, post: string, place: Place, m: CNode, holder: Option<Slot>,
          i: nat)
    requires Site(text, pre, k, post, place, m) && k.node.Coll? && !k.node.flow && !k.node.isMap
    requires i < |k.node.kids| && |k.node.kids| >= 2
    requires k.node.kids[i].drop != [] || (i == 0 && k.drop == [] && place.Child?)
    ensures m.CColl? && i < |m.value| && RemoveSlot(text, holder, SlotAt(m, i)) == Err(SharedLine)
  {
    hide PrintKid, PrintNode, KidHead, NodeOk, Composed, PrintKids, Column, Open, Close, KeyMark, KidLead, KidRest,
         LineEnd, KidIn, PrintBrs, Leads, BlockKidOk, StartCol, Prefix, Stripped, ContentEnd, Eol, NextLine, LineStart,
         Upto, From, Slice, RemoveFlow, RemoveFirstKey;
    var n, kid := k.node, k.node.kids[i];
    BlockTail(k, place);
    KidMarks(text, pre, k, post, place, m, i);
    BlockFacts(text, n, |pre + KidHead(k)|, m);
    ItemMark(kid, n.col, i == 0);
    KeyStart(kid, |pre + KidHead(k) + Open(n) + PrintKids(n.kids[..i])|);
    AroundKid(text, pre, k, post, i);
    KidSplit(kid);
    HeadSplit(kid);
    var f := pre + KidHead(k) + Open(n) + PrintKids(n.kids[..i]);
    var after := PrintKids(n.kids[i + 1..]) + (Close(n) + k.tail + post);
    if kid.drop != [] {
      var a := f + (KidLead(kid) + MarkText(kid.mark) + kid.gap);
      assert Leads(kid.drop, StartCol(kid, n.col)) by { DropLeads(kid, n.col, i == 0, false); }
      var rest := PrintNode(kid.node) + kid.tail + after;
      RefusedGlue(f, KidLead(kid) + MarkText(kid.mark) + kid.gap, PrintBrs(kid.drop), PrintNode(kid.node), kid.tail,
                  after);
      ValueLine(text, a, kid.drop, StartCol(kid, n.col), rest);
      assert |f| + |KidHead(kid)| == |a + PrintBrs(kid.drop)|;
    } else {
      DashPlace(k, place);
      FirstText(text, pre, k, post, place);
      EmptyBrs();
      var head := pre + KidLead(k);
      var h := head + "-" + k.gap;
      assert f == h by { CompactGlue(head, k.gap, "", ""); assert h + "" + "" == h; }
      var inner := "-" + kid.gap;
      assert KidHead(kid) == inner by { assert "" + "-" + kid.gap + "" == inner; }
      var rest := PrintNode(kid.node) + kid.tail + after;
      RefusedGlue(f, inner, "", PrintNode(kid.node), kid.tail, after);
      TwoDashes(text, head, k.gap, kid.gap, rest);
    }
  }

  lemma DropLeads(k: Kid, col: nat, first: bool, isMap: bool)
    requires BlockKidOk(k, col, first, isMap) && k.drop != []
    ensures Leads(k.drop, StartCol(k, col))
  {
    hide Leads, ReadScalar, PrintNode, StartCol;
  }

  lemma RefusedGlue(f: string, a: string, drop: string, p: string, tail: string, after: string)
    ensures f + ((a + drop) + p + tail) + after == ((f + a) + drop) + (p + tail + after)
    ensures f + (a + p + tail) + after == (f + a) + (p + tail + after)
    ensures a + "" == a
  {
  }

  lemma ValueLine(text: string, a: string, drop: seq<Br>, col: nat, rest: string)
    requires Leads(drop, col) && text == (a + PrintBrs(drop)) + rest
    ensures var at := |a + PrintBrs(drop)|; Stripped(Slice(text, LineStart(text, at), at)) == ""
  {
    hide PrintBrs, LineStart, Slice, Stripped, Spaces;
    LeadLine(a, drop, col, "");
    var front := a + PrintBrs(drop[..|drop| - 1]) + drop[|drop| - 1].nl;
    assert a + PrintBrs(drop) + "" == a + PrintBrs(drop);
    LineStartPrefix(a + PrintBrs(drop), rest);
    assert a + PrintBrs(drop) == front + Spaces(col);
    assert text == front + Spaces(col) + rest;
    Cut3(front, Spaces(col), rest);
    StrippedSpaces(Spaces(col));
  }

  lemma DashLine(u: string, f: string, gap: string, inner: string, rest: string)
    ensures var line := f + "-" + gap + "-" + inner;
            && (((u + f) + "-" + gap) + ("-" + inner)) + rest == u + line + rest
            && |u + line| == |((u + f) + "-" + gap) + ("-" + inner)|
            && line[|f|] == '-' && line[|f + "-" + gap|] == '-'
  {
  }

  lemma TwoDashes(text: string, head: string, gap: string, inner: string, rest: string)
    requires AllSpaces(gap) && AllSpaces(inner) && text == ((head + "-" + gap) + ("-" + inner)) + rest
    ensures var at := |(head + "-" + gap) + ("-" + inner)|;
            Stripped(Slice(text, LineStart(text, at), at)) != "-"
  {
    hide LineStart, Slice, Stripped;
    var h := head + "-" + gap;
    var ls := LineStart(head, |head|);
    LineStartLater(head, "-" + gap);
    assert head + ("-" + gap) == h;
    LineStartLater(h, "-" + inner);
    LineStartPrefix(h + ("-" + inner), rest);
    var u, f := Upto(head, ls), From(head, ls);
    assert u + f == head;
    var line := f + "-" + gap + "-" + inner;
    DashLine(u, f, gap, inner, rest);
    Cut3(u, line, rest);
    StrippedKeeps(line, |f|, |f + "-" + gap|);
  }
}
