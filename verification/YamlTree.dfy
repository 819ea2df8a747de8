/**
 A configuration document as a lossless tree: every character of the text is in it,
 so printing gives the text back. Block and flow mappings and sequences, one-line
 scalars, literal blocks, comments, blank lines and either line break.
 */
module YamlTree {
  import opened Text
  import opened YamlValue
  import opened YamlEmit
  import opened YamlBlock

  /** A line break and what opens the next line: spaces, then a comment or nothing. */
  datatype Br = Br(nl: string, pad: nat, note: string)

  /** What names a child: `key :`, a dash, or nothing (a flow item, the document's root). */
  datatype Mark = Key(src: string, sp: string, name: string) | Dash | Bare

  /**
   One child with all its text. In a flow collection `sep` holds the comma before it;
   in a block `lead` holds the lines from the previous child's end to its own start.
   `gap` and `drop` stand between the mark and the value, `tail` ends the value's line.
   */
  datatype Kid =
    Kid(sep: string, lead: seq<Br>, mark: Mark, gap: string, drop: seq<Br>, node: Node, tail: string)

  datatype Node =
    | Scalar(src: string, val: Value)
    | Literal(clip: bool, note: string, indent: nat, body: seq<Br>)
    | Coll(flow: bool, isMap: bool, col: nat, kids: seq<Kid>, close: string)

  /** The root stands after the file's head; `end` is every line after its last. */
  datatype Doc = Doc(root: Kid, end: seq<Br>)

  // --------------------------------------------------------------- printing

  function PrintBr(b: Br): string {
    b.nl + Spaces(b.pad) + b.note
  }

  function PrintBrs(brs: seq<Br>): string {
    if brs == [] then "" else PrintBr(brs[0]) + PrintBrs(brs[1..])
  }

  function MarkText(mark: Mark): string {
    match mark
    case Key(src, sp, _) => src + sp + ":"
    case Dash => "-"
    case Bare => ""
  }

  /** The text of a child before its mark, and before its value. */
  function KidLead(k: Kid): string {
    k.sep + PrintBrs(k.lead)
  }

  function KidHead(k: Kid): string {
    KidLead(k) + MarkText(k.mark) + k.gap + PrintBrs(k.drop)
  }

  function Open(n: Node): string
    requires n.Coll?
  {
    if !n.flow then "" else if n.isMap then "{" else "["
  }

  function Close(n: Node): string
    requires n.Coll?
  {
    n.close + if !n.flow then "" else if n.isMap then "}" else "]"
  }

  function PrintNode(n: Node): string
    decreases n, 1
  {
    match n
    case Scalar(src, _) => src
    case Literal(clip, note, _, body) => (if clip then "|" else "|-") + note + PrintBrs(body)
    case Coll(_, _, _, kids, _) => Open(n) + PrintKids(kids) + Close(n)
  }

  function PrintKid(k: Kid): string
    decreases k, 2
  {
    KidHead(k) + PrintNode(k.node) + k.tail
  }

  function PrintKids(kids: seq<Kid>): string
    decreases kids, 0
  {
    if kids == [] then "" else PrintKid(kids[0]) + PrintKids(kids[1..])
  }

  function PrintDoc(d: Doc): string {
    PrintKid(d.root) + PrintBrs(d.end)
  }

  lemma {:induction false} PrintBrsConcat(a: seq<Br>, b: seq<Br>)
    ensures PrintBrs(a + b) == PrintBrs(a) + PrintBrs(b)
  {
    if a == [] {
      assert a + b == b;
    } else {
      assert (a + b)[1..] == a[1..] + b;
      PrintBrsConcat(a[1..], b);
    }
  }

  lemma {:induction false} PrintKidsConcat(a: seq<Kid>, b: seq<Kid>)
    ensures PrintKids(a + b) == PrintKids(a) + PrintKids(b)
  {
    if a == [] {
      assert a + b == b;
    } else {
      assert (a + b)[1..] == a[1..] + b;
      PrintKidsConcat(a[1..], b);
    }
  }

  lemma PrintKidsAt(kids: seq<Kid>, i: nat)
    requires i < |kids|
    ensures PrintKids(kids) == PrintKids(kids[..i]) + PrintKid(kids[i]) + PrintKids(kids[i + 1..])
  {
    hide PrintKid;
    assert kids == kids[..i] + kids[i..];
    PrintKidsConcat(kids[..i], kids[i..]);
    assert kids[i..][1..] == kids[i + 1..];
  }

  // ----------------------------------------------------------------- values

  function Lines(body: seq<Br>): (lines: seq<string>)
    ensures |lines| == |body|
    ensures forall i | 0 <= i < |body| :: lines[i] == Spaces(body[i].pad) + body[i].note
  {
    if body == [] then [] else [Spaces(body[0].pad) + body[0].note] + Lines(body[1..])
  }

  function NodeValue(n: Node): Value
    decreases n
  {
    match n
    case Scalar(_, val) => val
    case Literal(clip, _, _, body) =>
      (match ReadBlock(clip, Lines(body))
       case Some(text) => Str(text)
       case None => Null)
    case Coll(_, isMap, _, kids, _) =>
      if isMap then Dict(seq(|kids|, i requires 0 <= i < |kids| => Pair(KidName(kids[i]), NodeValue(kids[i].node))))
      else List(seq(|kids|, i requires 0 <= i < |kids| => NodeValue(kids[i].node)))
  }

  function KidName(k: Kid): string {
    if k.mark.Key? then k.mark.name else ""
  }

  function DocValue(d: Doc): Value {
    NodeValue(d.root.node)
  }

  // --------------------------------------------------------- well-formedness

  predicate LineBreak(nl: string) {
    nl == "\n" || nl == "\r\n"
  }

  /** Blanks and then a comment, or nothing. */
  predicate Remark(s: string) {
    s == "" || s[0] == '#' || (s[0] == ' ' && Remark(s[1..]))
  }

  /** What may end a line after a value: blanks, and a comment after a blank. */
  predicate Trailing(s: string) {
    OneLine(s) && (s == "" || (s[0] == ' ' && Remark(s[1..])))
  }

  predicate Trivia(b: Br) {
    LineBreak(b.nl) && OneLine(b.note) && (b.note == "" || b.note[0] == '#')
  }

  /** Blank and comment lines, then the start of a line at column `col`. */
  predicate Leads(brs: seq<Br>, col: nat) {
    && brs != [] && (forall b | b in brs :: Trivia(b))
    && brs[|brs| - 1].pad == col && brs[|brs| - 1].note == ""
  }

  predicate AllSpaces(s: string) {
    forall i | 0 <= i < |s| :: s[i] == ' '
  }

  /** White space, line breaks and comments inside a flow collection. */
  predicate FlowBlank(s: string) {
    || s == "" || ((s[0] == ' ' || s[0] == '\r' || s[0] == '\n') && FlowBlank(s[1..]))
    || (s[0] == '#' && FlowComment(s[1..]))
  }

  predicate FlowComment(s: string) {
    s != "" && (if s[0] == '\r' || s[0] == '\n' then FlowBlank(s[1..]) else FlowComment(s[1..]))
  }

  /** Opens with a comment. */
  predicate Hashed(s: string) {
    s != "" && s[0] == '#'
  }

  /** One comma among blanks. */
  predicate Comma(s: string) {
    exists i | 0 <= i < |s| :: s[i] == ',' && FlowBlank(s[..i]) && FlowBlank(s[i + 1..])
  }

  /** How far before its colon a key may start, for YAML to read it as one. */
  const KEY_LIMIT := 1024

  predicate KeyOk(mark: Mark) {
    mark.Key? && OneLine(mark.src) && AllSpaces(mark.sp) && |mark.src| + |mark.sp| <= KEY_LIMIT
  }

  predicate InQuotes(src: string) {
    src != "" && src[0] == '\"'
  }

  predicate IsBlockNode(n: Node) {
    n.Literal? || (n.Coll? && !n.flow)
  }

  /** The literal block a node's text ends in, if it does. */
  function LastLiteral(n: Node): (lit: Option<Node>)
    ensures lit.Some? ==> lit.value.Literal?
  {
    match n
    case Scalar(_, _) => None
    case Literal(_, _, _, _) => Some(n)
    case Coll(flow, _, _, kids, _) =>
      if flow || kids == [] then None else LastLiteral(kids[|kids| - 1].node)
  }

  /**
   Lines that leave a literal block at `indent` alone: blank ones no deeper than it, up to a comment left
   of it, which ends the block; behind that comment any may stand.
   */
  predicate Spares(brs: seq<Br>, indent: nat) {
    brs == [] || if brs[0].note != "" then brs[0].pad < indent else brs[0].pad <= indent && Spares(brs[1..], indent)
  }

  /** Lines that may follow `n`: a literal block it ends in would take others as its own. */
  predicate Follows(n: Node, brs: seq<Br>) {
    match LastLiteral(n)
    case None => true
    case Some(lit) => (lit.clip ==> brs != []) && Spares(brs, lit.indent)
  }

  predicate Ink(c: char) {
    c != ' ' && c != '\t' && c != '\r' && c != '\n'
  }

  predicate HasInk(s: string) {
    exists i | 0 <= i < |s| :: Ink(s[i])
  }

  predicate LiteralOk(n: Node)
    requires n.Literal?
  {
    && Trailing(n.note) && n.body != []
    && (forall b | b in n.body :: LineBreak(b.nl) && OneLine(b.note))
    && HasInk(n.body[|n.body| - 1].note)
  }

  /** A value that is not there, and so null. */
  predicate Absent(n: Node) {
    n.Scalar? && n.src == ""
  }

  predicate FlowKidOk(k: Kid, first: bool, isMap: bool) {
    && k.lead == [] && k.drop == [] && k.tail == "" && !IsBlockNode(k.node)
    && (if first then FlowBlank(k.sep) else Comma(k.sep))
    && (if isMap then KeyOk(k.mark) && FlowBlank(k.gap) else k.mark.Bare? && k.gap == "")
    && (Absent(k.node) ==> isMap && k.gap == "")
    && (!Absent(k.node) && isMap ==> k.gap != "" || InQuotes(k.mark.src))
    && (isMap && Hashed(k.gap) ==> InQuotes(k.mark.src))
  }

  /** A comment may start right after it: it ends in a quote, a bracket, or a quoted key's colon. */
  predicate Touchable(k: Kid) {
    match k.node
    case Scalar(src, _) => if src == "" then k.mark.Key? && InQuotes(k.mark.src) else InQuotes(src)
    case Literal(_, _, _, _) => false
    case Coll(_, _, _, _, _) => true
  }

  /** What stands right after child `i` of a flow collection. */
  function Beyond(kids: seq<Kid>, close: string, i: nat): string
    requires i < |kids|
  {
    if i + 1 < |kids| then kids[i + 1].sep else close
  }

  /** No comment touches a plain scalar, which would take it in. */
  predicate Clear(kids: seq<Kid>, close: string) {
    forall i | 0 <= i < |kids| :: Hashed(Beyond(kids, close, i)) ==> Touchable(kids[i])
  }

  /** The column a value starts at when its line is `drop`'s last, or the mark's own. */
  function StartCol(k: Kid, col: nat): nat {
    if k.drop != [] then k.drop[|k.drop| - 1].pad else col + |MarkText(k.mark)| + |k.gap|
  }

  /** Where a block child's value may stand, for a child at column `col`. */
  predicate Placed(k: Kid, col: nat) {
    && (if k.drop == [] then AllSpaces(k.gap) else Trailing(k.gap) && Leads(k.drop, StartCol(k, col)))
    && (match k.node
        case Scalar(src, _) =>
          && Trailing(k.tail)
          && (if src == "" then k.gap == "" && k.drop == []
              else if k.drop == [] then k.gap != "" else StartCol(k, col) > col)
        case Literal(_, _, indent, _) => k.tail == "" && k.drop == [] && k.gap != "" && indent > col
        case Coll(flow, isMap, inner, _, _) =>
          if flow then Trailing(k.tail) && if k.drop == [] then k.gap != "" else StartCol(k, col) > col
          else
            && k.tail == "" && inner == StartCol(k, col)
            && (k.drop == [] ==> k.mark.Dash? && k.gap != "")
            && (inner > col || (inner == col && k.mark.Key? && !isMap)))
  }

  predicate BlockKidOk(k: Kid, col: nat, first: bool, isMap: bool) {
    && k.sep == "" && (if first then k.lead == [] else Leads(k.lead, col))
    && (if isMap then KeyOk(k.mark) else k.mark.Dash?)
    && Placed(k, col)
  }

  /** Everything stands where block and flow style want it. */
  predicate NodeOk(n: Node)
    decreases n
  {
    match n
    case Scalar(src, val) => OneLine(src) && (src == "" ==> val.Null?)
    case Literal(_, _, _, _) => LiteralOk(n)
    case Coll(flow, isMap, col, kids, close) =>
      && (forall i | 0 <= i < |kids| :: NodeOk(kids[i].node))
      && if flow then
           && col == 0 && (FlowBlank(close) || (kids != [] && Comma(close)))
           && (forall i | 0 <= i < |kids| :: FlowKidOk(kids[i], i == 0, isMap)) && Clear(kids, close)
         else
           && kids != [] && close == ""
           && (forall i | 0 <= i < |kids| :: BlockKidOk(kids[i], col, i == 0, isMap))
           && forall i | 0 <= i < |kids| - 1 :: Follows(kids[i].node, kids[i + 1].lead)
  }

  /** The scalars, keys and literal blocks of a node are spelled as their values. */
  predicate Spelled(n: Node)
    decreases n
  {
    match n
    case Scalar(src, val) => ReadScalar(src) == Some(val)
    case Literal(clip, _, indent, body) =>
      BlockIndent(Lines(body)) == Some(indent) && ReadBlock(clip, Lines(body)).Some?
    case Coll(_, _, _, kids, _) => forall i | 0 <= i < |kids| :: KeySpelled(kids[i].mark) && Spelled(kids[i].node)
  }

  predicate KeySpelled(mark: Mark) {
    mark.Key? ==> ReadScalar(mark.src) == Some(Str(mark.name))
  }

  predicate Sound(n: Node) {
    NodeOk(n) && Spelled(n)
  }

  predicate KeySound(mark: Mark) {
    KeyOk(mark) && KeySpelled(mark)
  }

  /** The root's own place: after the file's first lines, at the column they leave. */
  predicate RootOk(k: Kid) {
    && k.sep == "" && k.lead == [] && k.mark.Bare?
    && (if k.drop == [] then AllSpaces(k.gap)
        else OneLine(k.gap) && Remark(k.gap) && Leads(k.drop, StartCol(k, 0)))
    && PrintNode(k.node) != "" && !k.node.Literal?
    && (if IsBlockNode(k.node) then k.tail == "" && k.node.col == StartCol(k, 0) else Trailing(k.tail))
  }

  predicate DocOk(d: Doc) {
    && RootOk(d.root) && Sound(d.root.node)
    && (forall b | b in d.end :: Trivia(b)) && Follows(d.root.node, d.end)
  }
}
