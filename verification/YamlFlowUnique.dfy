/**
 The printer is unambiguous, flow style: from where a scalar or a flow collection starts, a text
 has one reading.
 */
module YamlFlowUnique {
  import opened Text
  import opened Decimal
  import opened YamlValue
  import opened YamlEmit
  import opened YamlTree

  // ---------------------------------------------------------------- scalars

  /** What a plain scalar of this model is made of. */
  predicate InToken(c: char) {
    WordChar(c) || c in "~.+"
  }

  /** What may stand right after a scalar. */
  predicate Ends(r: string) {
    r == "" || r[0] in " \r\n,]}:#"
  }

  lemma FalseTokens(s: string)
    requires IsFalse(s)
    ensures s != "" && forall i | 0 <= i < |s| :: WordStart(s[i])
  {
  }

  lemma ExponentTokens(s: string)
    requires ReadExponent(s).Some?
    ensures forall i | 0 <= i < |s| :: InToken(s[i])
  {
    if s != "" {
      assert forall i | 2 <= i < |s| :: s[i] == s[2..][i - 2];
    }
  }

  lemma FloatTokens(negative: bool, body: string)
    requires ReadUnsigned(negative, body).Some?
    ensures forall i | 0 <= i < |body| :: InToken(body[i])
    ensures body != "" && IsDigit(body[0])
  {
    hide ReadExponent, LeadingDigits;
    var whole := LeadingDigits(body);
    var later := body[|whole| + 1..];
    var fraction := LeadingDigits(later);
    var exponent := later[|fraction|..];
    ExponentTokens(exponent);
    forall i | 0 <= i < |body| ensures InToken(body[i]) {
      if i < |whole| {
        assert body[i] == whole[i];
      } else if i > |whole| {
        var j := i - |whole| - 1;
        assert body[i] == later[j];
        if j < |fraction| {
          assert later[j] == fraction[j];
        } else {
          assert later[j] == exponent[j - |fraction|];
        }
      }
    }
    assert body[0] == whole[0];
  }

  /** A plain scalar holds nothing that could end one; one that starts with a minus is a number. */
  lemma PlainTokens(s: string)
    requires ReadPlain(s).Some?
    ensures forall i | 0 <= i < |s| :: InToken(s[i])
    ensures s != "" ==> WordStart(s[0]) || s[0] == '~' || IsDigit(s[0]) || (|s| >= 2 && s[0] == '-' && IsDigit(s[1]))
  {
    hide ReadUnsigned, NatValue;
    if IsNull(s) {
      assert forall i | 0 <= i < |s| :: InToken(s[i]);
      assert s != "" ==> WordStart(s[0]) || s[0] == '~';
    } else if IsTrue(s) {
      assert s != "" && forall i | 0 <= i < |s| :: WordStart(s[i]);
    } else if IsFalse(s) {
      FalseTokens(s);
    } else if ReadInt(s).Some? {
      assert s[0] == '-' ==> forall i | 1 <= i < |s| :: s[i] == s[1..][i - 1];
    } else if ReadFloat(s).Some? {
      if s != "" && s[0] == '-' {
        FloatTokens(true, s[1..]);
        assert forall i | 1 <= i < |s| :: s[i] == s[1..][i - 1];
      } else {
        FloatTokens(false, s);
      }
    }
  }

  /** The longest run of such characters is the scalar. */
  lemma TokenUnique(a: string, ra: string, b: string, rb: string)
    requires (forall i | 0 <= i < |a| :: InToken(a[i])) && (forall i | 0 <= i < |b| :: InToken(b[i]))
    requires Ends(ra) && Ends(rb) && a + ra == b + rb
    ensures a == b && ra == rb
  {
    var s := a + ra;
    assert (forall i | 0 <= i < |a| :: s[i] == a[i]) && forall i | 0 <= i < |b| :: s[i] == b[i];
    assert (|a| < |s| ==> s[|a|] == ra[0] && !InToken(s[|a|])) && (|b| < |s| ==> s[|b|] == rb[0] && !InToken(s[|b|]));
    assert |a| == |b|;
    assert a == s[..|a|] && b == s[..|b|] && ra == s[|a|..] && rb == s[|b|..];
  }

  /** What follows a quoted scalar does not change how it reads. */
  lemma {:induction false} QuotedRest(s: string, r: string)
    requires ReadQuoted(s).Some?
    ensures ReadQuoted(s + r) == Some(Quoted(ReadQuoted(s).value.text, ReadQuoted(s).value.rest + r))
    decreases |s|
  {
    hide Escaped;
    var all := s + r;
    assert all[0] == s[0] && all[1..] == s[1..] + r;
    if s[0] == '\"' {
    } else if s[0] != '\\' {
      QuotedRest(s[1..], r);
    } else if |s| >= 2 && Escaped(s[1]).Some? {
      assert all[1] == s[1] && all[2..] == s[2..] + r;
      QuotedRest(s[2..], r);
    } else {
      assert all[1] == s[1] && all[2..6] == s[2..6] && all[6..] == s[6..] + r;
      QuotedRest(s[6..], r);
    }
  }

  /** A scalar's text is the same in every reading. */
  lemma SrcUnique(a: string, ra: string, b: string, rb: string)
    requires ReadScalar(a).Some? && ReadScalar(b).Some? && a != "" && b != ""
    requires Ends(ra) && Ends(rb) && a + ra == b + rb
    ensures a == b && ra == rb
  {
    hide ReadPlain, ReadQuoted, Ends;
    var s := a + ra;
    assert s[0] == a[0] == b[0];
    if a[0] == '\"' {
      QuotedRest(a[1..], ra);
      QuotedRest(b[1..], rb);
      assert s[1..] == a[1..] + ra == b[1..] + rb;
      assert "" + ra == ra && "" + rb == rb;
      assert a == s[..|s| - |ra|] && b == s[..|s| - |rb|];
    } else {
      PlainTokens(a);
      PlainTokens(b);
      TokenUnique(a, ra, b, rb);
    }
  }

  // ------------------------------------------------------- blanks and commas

  /** Past blanks, line breaks and comments. */
  function Skip(s: string): string
    decreases |s|
  {
    if s == "" then s
    else if s[0] == ' ' || s[0] == '\r' || s[0] == '\n' then Skip(s[1..])
    else if s[0] == '#' then SkipComment(s[1..])
    else s
  }

  function SkipComment(s: string): string
    decreases |s|
  {
    if s == "" then s else if s[0] == '\r' || s[0] == '\n' then Skip(s[1..]) else SkipComment(s[1..])
  }

  /** Something that is neither blank nor a comment. */
  predicate Shown(s: string) {
    s != "" && Ink(s[0]) && s[0] != '#'
  }

  lemma {:induction false} SkipsBlank(b: string, x: string)
    requires FlowBlank(b) && Shown(x)
    ensures Skip(b + x) == x
    decreases |b|
  {
    if b == "" {
      assert b + x == x;
    } else {
      assert (b + x)[0] == b[0] && (b + x)[1..] == b[1..] + x;
      if b[0] == '#' {
        SkipsComment(b[1..], x);
      } else {
        SkipsBlank(b[1..], x);
      }
    }
  }

  lemma {:induction false} SkipsComment(b: string, x: string)
    requires FlowComment(b) && Shown(x)
    ensures SkipComment(b + x) == x
    decreases |b|
  {
    assert (b + x)[0] == b[0] && (b + x)[1..] == b[1..] + x;
    if b[0] in "\r\n" {
      SkipsBlank(b[1..], x);
    } else {
      SkipsComment(b[1..], x);
    }
  }

  /** Past the blanks before the first child, or past the comma and the blanks around it. */
  function Head(s: string, first: bool): string {
    var x := Skip(s);
    if !first && x != "" && x[0] == ',' then Skip(x[1..]) else x
  }

  lemma CommaSkipped(b: string, x: string)
    requires Comma(b) && Shown(x)
    ensures Head(b + x, false) == x
    ensures Skip(b + x) != "" && Skip(b + x)[0] == ','
  {
    hide FlowBlank, Skip;
    var i :| 0 <= i < |b| && b[i] == ',' && FlowBlank(b[..i]) && FlowBlank(b[i + 1..]);
    var later := "," + (b[i + 1..] + x);
    assert b + x == b[..i] + later;
    SkipsBlank(b[..i], later);
    assert later[1..] == b[i + 1..] + x;
    SkipsBlank(b[i + 1..], x);
  }

  // --------------------------------------------------------- flow collections

  function Closing(isMap: bool): string {
    if isMap then "}" else "]"
  }

  /** A flow child from its mark on. */
  function FlowRest(k: Kid): string {
    MarkText(k.mark) + k.gap + PrintNode(k.node)
  }

  /** Children well formed, the first of them first in its collection or not, and what stands before its end. */
  predicate FlowTail(kids: seq<Kid>, close: string, isMap: bool, first: bool) {
    && (forall i | 0 <= i < |kids| ::
      Sound(kids[i].node) && FlowKidOk(kids[i], first && i == 0, isMap) && KeySpelled(kids[i].mark))
    && (FlowBlank(close) || (!(first && kids == []) && Comma(close)))
  }

  lemma NodeShown(n: Node)
    requires Sound(n) && PrintNode(n) != "" && !IsBlockNode(n)
    ensures Shown(PrintNode(n)) && PrintNode(n)[0] !in ",]}:"
    ensures n.Scalar? ==> PrintNode(n)[0] !in "[{"
    ensures n.Coll? ==> PrintNode(n)[0] == if n.isMap then '{' else '['
  {
    hide ReadPlain, ReadQuoted, FlowKidOk;
    if n.Scalar? {
      if n.src[0] != '\"' {
        PlainTokens(n.src);
      }
    }
  }

  lemma KeyShown(mark: Mark)
    requires KeySound(mark)
    ensures mark.Key? && mark.src != "" && Shown(mark.src) && mark.src[0] !in ",]}:-[{|"
    ensures mark.src[0] == '\"' || WordStart(mark.src[0])
  {
    hide ReadQuoted;
    if mark.src == "" || mark.src[0] != '\"' {
      // Plain text is a word.
      assert Word(mark.src) by { hide ReadExponent, LeadingDigits, NatValue; }
    }
  }

  lemma FlowRestShown(k: Kid, first: bool, isMap: bool)
    requires FlowKidOk(k, first, isMap) && KeySpelled(k.mark) && Sound(k.node)
    ensures Shown(FlowRest(k)) && FlowRest(k)[0] !in ",]}"
  {
    hide KeyOk, KeySpelled, Sound, FlowBlank, Comma, PrintNode;
    if isMap {
      KeyShown(k.mark);
      assert FlowRest(k) == k.mark.src + (k.mark.sp + ":" + k.gap + PrintNode(k.node));
    } else {
      NoText(k.node);
      NodeShown(k.node);
      assert FlowRest(k) == PrintNode(k.node);
    }
  }

  /** Only an empty scalar has no text. */
  lemma NoText(n: Node)
    requires Sound(n) && !IsBlockNode(n)
    ensures PrintNode(n) == "" <==> n.Scalar? && n.src == ""
  {
    hide ReadScalar, FlowKidOk;
  }

  /** What stands before the next child of a flow collection or before its end, and from there on. */
  function Sep(kids: seq<Kid>, close: string): string {
    if kids == [] then close else kids[0].sep
  }

  function From(kids: seq<Kid>, close: string, isMap: bool, r: string): string {
    if kids == [] then Closing(isMap) + r
    else FlowRest(kids[0]) + (PrintKids(kids[1..]) + close + Closing(isMap) + r)
  }

  lemma FlowKidText(k: Kid, first: bool, isMap: bool)
    requires FlowKidOk(k, first, isMap)
    ensures PrintKid(k) == k.sep + FlowRest(k)
  {
    hide KeyOk, KeySpelled, PrintNode, FlowBlank, Comma;
    assert PrintBrs([]) == "";
  }

  lemma KidsText(kids: seq<Kid>, close: string, isMap: bool, first: bool, r: string)
    requires kids != [] && FlowKidOk(kids[0], first, isMap)
    ensures PrintKids(kids) + close + Closing(isMap) + r == kids[0].sep + From(kids, close, isMap, r)
  {
    hide FlowRest, FlowKidOk, PrintKid, Closing;
    FlowKidText(kids[0], first, isMap);
    TailGlue(kids[0].sep, FlowRest(kids[0]), PrintKids(kids[1..]), close, Closing(isMap), r);
  }

  lemma TailText(kids: seq<Kid>, close: string, isMap: bool, first: bool, r: string)
    requires FlowTail(kids, close, isMap, first)
    ensures var sep, x := Sep(kids, close), From(kids, close, isMap, r);
            && PrintKids(kids) + close + Closing(isMap) + r == sep + x && Shown(x) && x[0] != ','
            && (if kids == [] then x[0] == Closing(isMap)[0] else x[0] !in ",]}")
            && (FlowBlank(sep) || (!first && Comma(sep))) && (kids != [] && !first ==> Comma(sep))
  {
    hide FlowBlank, Comma, Sound, FlowRest, FlowKidOk, PrintKid, KeySpelled;
    if kids == [] {
      assert PrintKids(kids) + close + Closing(isMap) + r == close + (Closing(isMap) + r);
    } else {
      KidsText(kids, close, isMap, first, r);
      KidSep(kids[0], first, isMap);
      FlowRestShown(kids[0], first, isMap);
    }
  }

  lemma TailGlue(sep: string, rest: string, later: string, close: string, end: string, r: string)
    ensures ((sep + rest) + later) + close + end + r == sep + (rest + (later + close + end + r))
  {
  }

  /** What follows a child of a flow collection: the next one, or the end. */
  lemma TailEnds(kids: seq<Kid>, close: string, isMap: bool, r: string)
    requires FlowTail(kids, close, isMap, false)
    ensures Ends(PrintKids(kids) + close + Closing(isMap) + r)
  {
    hide FlowTail, PrintKids, Sep, From;
    var sep, x := Sep(kids, close), From(kids, close, isMap, r);
    TailText(kids, close, isMap, false, r);
    assert Ends(sep) && (Comma(sep) ==> sep != "") by {
      if Comma(sep) {
        var i :| 0 <= i < |sep| && sep[i] == ',' && FlowBlank(sep[..i]) && FlowBlank(sep[i + 1..]);
        if i > 0 { assert sep[..i][0] == sep[0]; }
      }
    }
    if sep == "" {
      ClosingEnds(kids, close, isMap, r);
    }
    assert Ends(sep + x) by {
      if sep == "" {
        assert sep + x == x;
      }
    }
  }

  lemma ClosingEnds(kids: seq<Kid>, close: string, isMap: bool, r: string)
    requires FlowTail(kids, close, isMap, false) && Sep(kids, close) == ""
    ensures Ends(From(kids, close, isMap, r))
  {
    hide Sound, PrintKids, FlowBlank, FlowRest;
    if kids != [] {
      KidSep(kids[0], false, isMap);
    }
  }

  /** From the start of a flow collection's children: its end, or the first child and what follows it. */
  lemma HeadOf(kids: seq<Kid>, close: string, isMap: bool, first: bool, r: string)
    requires FlowTail(kids, close, isMap, first)
    ensures var x := From(kids, close, isMap, r);
            && Head(PrintKids(kids) + close + Closing(isMap) + r, first) == x && x != ""
            && (kids == [] <==> x[0] == Closing(isMap)[0])
  {
    hide FlowTail, Comma, PrintKids, Sep, From;
    var sep, x := Sep(kids, close), From(kids, close, isMap, r);
    TailText(kids, close, isMap, first, r);
    if FlowBlank(sep) {
      assert Head(sep + x, first) == x by {
        hide Skip, FlowBlank;
        SkipsBlank(sep, x);
      }
    } else {
      CommaSkipped(sep, x);
    }
  }

  lemma KidSep(k: Kid, first: bool, isMap: bool)
    requires FlowKidOk(k, first, isMap)
    ensures if first then FlowBlank(k.sep) else Comma(k.sep)
  {
  }

  /** A flow value in two readings of a text is the same value, and so is what follows it. */
  lemma {:induction false} FlowUnique(a: Node, ra: string, b: Node, rb: string)
    requires Sound(a) && Sound(b) && !IsBlockNode(a) && !IsBlockNode(b)
    requires PrintNode(a) != "" && PrintNode(b) != "" && Ends(ra) && Ends(rb)
    requires PrintNode(a) + ra == PrintNode(b) + rb
    ensures NodeValue(a) == NodeValue(b) && ra == rb
    decreases a, 1
  {
    hide Sound, PrintKids, FlowTail, Ends, ReadScalar, NodeValue;
    NodeShown(a);
    NodeShown(b);
    assert (PrintNode(a) + ra)[0] == PrintNode(a)[0] && (PrintNode(b) + rb)[0] == PrintNode(b)[0];
    if a.Scalar? {
      ScalarParts(a);
      ScalarParts(b);
      SrcUnique(a.src, ra, b.src, rb);
    } else {
      FlowParts(a);
      FlowParts(b);
      FlowText(a, ra);
      FlowText(b, rb);
      FlowKidsUnique(a.kids, a.close, ra, b.kids, b.close, rb, a.isMap, true);
      SameValue(a, b);
    }
  }

  lemma ScalarParts(n: Node)
    requires Sound(n) && n.Scalar?
    ensures ReadScalar(n.src) == Some(n.val)
  {
  }

  lemma FlowParts(n: Node)
    requires Sound(n) && n.Coll? && n.flow
    ensures FlowTail(n.kids, n.close, n.isMap, true)
  {
    hide FlowKidOk, FlowBlank, Comma;
  }

  lemma FlowText(n: Node, r: string)
    requires n.Coll? && n.flow
    ensures (PrintNode(n) + r)[1..] == PrintKids(n.kids) + n.close + Closing(n.isMap) + r
  {
    hide PrintKids;
    assert PrintNode(n) + r == Open(n) + (PrintKids(n.kids) + n.close + Closing(n.isMap) + r);
  }

  lemma SameValue(a: Node, b: Node)
    requires a.Coll? && b.Coll? && a.isMap == b.isMap && SameKids(a.kids, b.kids)
    ensures NodeValue(a) == NodeValue(b)
  {
    hide KidName;
  }

  /** Children with the same names and values. */
  predicate SameKids(a: seq<Kid>, b: seq<Kid>) {
    && |a| == |b|
    && forall i | 0 <= i < |a| :: KidName(a[i]) == KidName(b[i]) && NodeValue(a[i].node) == NodeValue(b[i].node)
  }

  lemma SameKidsMore(a: seq<Kid>, b: seq<Kid>)
    requires a != [] && b != [] && SameKids(a[1..], b[1..])
    requires KidName(a[0]) == KidName(b[0]) && NodeValue(a[0].node) == NodeValue(b[0].node)
    ensures SameKids(a, b)
  {
    hide KidName, NodeValue;
    forall i | 0 <= i < |a|
      ensures KidName(a[i]) == KidName(b[i]) && NodeValue(a[i].node) == NodeValue(b[i].node)
    {
      if i > 0 {
        assert a[i] == a[1..][i - 1] && b[i] == b[1..][i - 1];
      }
    }
  }

  lemma {:induction false} FlowKidsUnique(a: seq<Kid>, ca: string, ra: string, b: seq<Kid>, cb: string, rb: string,
          isMap: bool, first: bool)
    requires FlowTail(a, ca, isMap, first) && FlowTail(b, cb, isMap, first)
    requires PrintKids(a) + ca + Closing(isMap) + ra == PrintKids(b) + cb + Closing(isMap) + rb
    ensures SameKids(a, b) && ra == rb
    decreases a, 0
  {
    hide Sound, PrintKids, FlowTail, FlowRest, NodeValue, KidName, Head, FlowKidOk, KeySpelled;
    HeadOf(a, ca, isMap, first, ra);
    HeadOf(b, cb, isMap, first, rb);
    if a == [] || b == [] {
      assert a == [] && b == [];
      assert (Closing(isMap) + ra)[1..] == ra && (Closing(isMap) + rb)[1..] == rb;
    } else {
      var xa := PrintKids(a[1..]) + ca + Closing(isMap) + ra;
      var xb := PrintKids(b[1..]) + cb + Closing(isMap) + rb;
      TailRest(a, ca, isMap, first);
      TailRest(b, cb, isMap, first);
      FlowKidUnique(a[0], xa, b[0], xb, first, isMap, a[1..], ca, ra, b[1..], cb, rb);
      FlowKidsUnique(a[1..], ca, ra, b[1..], cb, rb, isMap, false);
      SameKidsMore(a, b);
    }
  }

  lemma TailRest(kids: seq<Kid>, close: string, isMap: bool, first: bool)
    requires FlowTail(kids, close, isMap, first) && kids != []
    ensures FlowTail(kids[1..], close, isMap, false)
    ensures Sound(kids[0].node) && FlowKidOk(kids[0], first, isMap) && KeySpelled(kids[0].mark)
  {
    hide Sound, KeySpelled, FlowKidOk, FlowBlank, Comma;
  }

  lemma {:induction false} FlowKidUnique(a: Kid, xa: string, b: Kid, xb: string, first: bool, isMap: bool,
          la: seq<Kid>, ca: string, ra: string, lb: seq<Kid>, cb: string, rb: string)
    requires Sound(a.node) && Sound(b.node) && FlowKidOk(a, first, isMap) && FlowKidOk(b, first, isMap)
    requires KeySpelled(a.mark) && KeySpelled(b.mark)
    requires FlowTail(la, ca, isMap, false) && xa == PrintKids(la) + ca + Closing(isMap) + ra
    requires FlowTail(lb, cb, isMap, false) && xb == PrintKids(lb) + cb + Closing(isMap) + rb
    requires FlowRest(a) + xa == FlowRest(b) + xb
    ensures KidName(a) == KidName(b) && NodeValue(a.node) == NodeValue(b.node) && xa == xb
    decreases a, 0
  {
    hide *;
    TailEnds(la, ca, isMap, ra);
    TailEnds(lb, cb, isMap, rb);
    if isMap {
      EntryText(a, xa, la, ca, ra, first);
      EntryText(b, xb, lb, cb, rb, first);
      KeyUnique(a.mark, a.gap + PrintNode(a.node) + xa, b.mark, b.gap + PrintNode(b.node) + xb);
    } else {
      ItemText(a, xa, first);
      ItemText(b, xb, first);
    }
    NoText(a.node);
    NoText(b.node);
    if a.node.Scalar? && a.node.src == "" {
      EmptyValue(a.node);
      EmptyValue(b.node);
    } else {
      FlowUnique(a.node, xa, b.node, xb);
    }
  }

  /** An entry's text: its key, and behind the colon its value, or without one what ends the entry. */
  lemma EntryText(k: Kid, x: string, kids: seq<Kid>, close: string, r: string, first: bool)
    requires FlowKidOk(k, first, true) && KeySpelled(k.mark) && Sound(k.node)
    requires FlowTail(kids, close, true, false) && x == PrintKids(kids) + close + Closing(true) + r
    ensures KeySound(k.mark) && KidName(k) == k.mark.name && !IsBlockNode(k.node)
    ensures FlowRest(k) + x == MarkText(k.mark) + (k.gap + PrintNode(k.node) + x)
    ensures var y := k.gap + PrintNode(k.node) + x;
            var s := Skip(y);
            && s != "" && (k.node.Scalar? && k.node.src == "" <==> s[0] in ",}")
            && (if k.node.Scalar? && k.node.src == "" then y == x else s == PrintNode(k.node) + x)
  {
    hide Sound, KeyOk, KeySpelled, FlowTail, PrintKids, PrintNode, Skip, FlowBlank, Comma, Closing;
    GapSkipped(k, x, kids, close, r, first);
    NoText(k.node);
    KeyShown(k.mark);
    var value := PrintNode(k.node);
    assert (MarkText(k.mark) + k.gap + value) + x == MarkText(k.mark) + (k.gap + value + x)
           && (k.gap == "" && value == "" ==> k.gap + value + x == x) by {
      hide MarkText;
    }
  }

  lemma ItemText(k: Kid, x: string, first: bool)
    requires FlowKidOk(k, first, false)
    ensures KidName(k) == "" && FlowRest(k) + x == PrintNode(k.node) + x && !IsBlockNode(k.node)
    ensures !(k.node.Scalar? && k.node.src == "")
  {
    hide PrintNode, FlowBlank, Comma;
  }

  lemma EmptyValue(n: Node)
    requires Sound(n) && n.Scalar? && n.src == ""
    ensures NodeValue(n) == Null
  {
  }

  /** Behind a key's colon: the value, or without one what ends the entry. */
  lemma GapSkipped(k: Kid, x: string, kids: seq<Kid>, close: string, r: string, first: bool)
    requires FlowKidOk(k, first, true) && Sound(k.node)
    requires FlowTail(kids, close, true, false) && x == PrintKids(kids) + close + Closing(true) + r
    ensures var s := Skip(k.gap + PrintNode(k.node) + x);
            if k.node.Scalar? && k.node.src == "" then s != "" && s[0] in ",}"
            else s == PrintNode(k.node) + x && s != "" && s[0] !in ",}"
  {
    hide Sound, KeyOk, KeySpelled, FlowBlank, Comma, Skip, FlowTail, PrintKids, PrintNode;
    NoText(k.node);
    if k.node.Scalar? && k.node.src == "" {
      assert k.gap + PrintNode(k.node) + x == x;
      TailStops(kids, close, true, r);
    } else {
      NodeShown(k.node);
      SkipsBlank(k.gap, PrintNode(k.node) + x);
      assert k.gap + PrintNode(k.node) + x == k.gap + (PrintNode(k.node) + x);
    }
  }

  /** After a child comes a comma or the end. */
  lemma TailStops(kids: seq<Kid>, close: string, isMap: bool, r: string)
    requires FlowTail(kids, close, isMap, false)
    ensures var s := Skip(PrintKids(kids) + close + Closing(isMap) + r);
            s != "" && (s[0] == ',' || s[0] == Closing(isMap)[0])
  {
    hide FlowTail, FlowBlank, Comma, PrintKids, Sep, From, Skip, Head;
    var sep, x := Sep(kids, close), From(kids, close, isMap, r);
    TailText(kids, close, isMap, false, r);
    if Comma(sep) {
      CommaSkipped(sep, x);
    } else {
      SkipsBlank(sep, x);
    }
  }

  lemma KeyParts(mark: Mark, x: string)
    requires KeySound(mark)
    ensures mark.Key? && mark.src != "" && ReadScalar(mark.src) == Some(Str(mark.name)) && AllSpaces(mark.sp)
    ensures MarkText(mark) + x == mark.src + (mark.sp + (":" + x)) && Ends(mark.sp + (":" + x))
  {
    hide ReadScalar;
    KeyShown(mark);
    if mark.sp == "" {
      assert mark.sp + (":" + x) == ":" + x;
    }
  }

  /** A key is the same in every reading, and so is what follows its colon. */
  lemma KeyUnique(a: Mark, xa: string, b: Mark, xb: string)
    requires KeySound(a) && KeySound(b) && MarkText(a) + xa == MarkText(b) + xb
    ensures a.Key? && b.Key? && a.src == b.src && a.name == b.name && xa == xb
  {
    hide *;
    KeyParts(a, xa);
    KeyParts(b, xb);
    SrcUnique(a.src, a.sp + (":" + xa), b.src, b.sp + (":" + xb));
    PadUnique(a.sp, ":" + xa, b.sp, ":" + xb);
    assert (":" + xa)[1..] == xa && (":" + xb)[1..] == xb;
  }

  /** Blanks in front of something that is none. */
  lemma PadUnique(p: string, x: string, q: string, y: string)
    requires AllSpaces(p) && AllSpaces(q) && (x == "" || x[0] != ' ') && (y == "" || y[0] != ' ') && p + x == q + y
    ensures p == q && x == y
  {
    var s := p + x;
    assert (forall i | 0 <= i < |p| :: s[i] == p[i]) && forall i | 0 <= i < |q| :: s[i] == q[i];
    assert (|p| < |s| ==> s[|p|] == x[0]) && (|q| < |s| ==> s[|q|] == y[0]);
    assert |p| == |q|;
    assert p == s[..|p|] && q == s[..|q|] && x == s[|p|..] && y == s[|q|..];
  }
}
