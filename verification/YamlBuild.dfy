/**
 New values as trees: what the emitter writes is the printing of a well-formed tree
 that denotes the value.
 */
module YamlBuild {
  import opened Text
  import opened YamlValue
  import opened YamlEmit
  import opened YamlBlock
  import opened YamlTree

  // ------------------------------------------------------------- flow style

  function FlowEntry(first: bool, key: string, v: Value): Kid
    decreases v, 1
  {
    Kid(if first then "" else ", ", [], Key(Quote(key), "", key), " ", [], FlowNode(v), "")
  }

  function FlowItem(first: bool, v: Value): Kid
    decreases v, 1
  {
    Kid(if first then "" else ", ", [], Bare, "", [], FlowNode(v), "")
  }

  function FlowNode(v: Value): Node
    decreases v, 0
  {
    match v
    case Dict(pairs) => Coll(true, true, 0, FlowEntries(pairs, true), "")
    case List(items) => Coll(true, false, 0, FlowList(items, true), "")
    case _ => Scalar(ScalarText(v), v)
  }

  function FlowEntries(pairs: seq<Pair>, first: bool): (kids: seq<Kid>)
    ensures |kids| == |pairs|
    ensures forall i | 0 <= i < |pairs| :: kids[i] == FlowEntry(first && i == 0, pairs[i].key, pairs[i].val)
    decreases pairs, 0
  {
    if pairs == [] then [] else [FlowEntry(first, pairs[0].key, pairs[0].val)] + FlowEntries(pairs[1..], false)
  }

  function FlowList(items: seq<Value>, first: bool): (kids: seq<Kid>)
    ensures |kids| == |items|
    ensures forall i | 0 <= i < |items| :: kids[i] == FlowItem(first && i == 0, items[i])
    decreases items, 0
  {
    if items == [] then [] else [FlowItem(first, items[0])] + FlowList(items[1..], false)
  }

  lemma {:induction false} FlowNodePrints(v: Value)
    ensures PrintNode(FlowNode(v)) == FlowText(v)
    decreases v, 1
  {
    hide PrintKids, FlowEntries, FlowList, FlowItems, FlowPairs, ScalarText;
    if v.Dict? {
      FlowEntriesPrint(v.pairs, true);
    } else if v.List? {
      FlowListPrints(v.items, true);
    }
  }

  /** The text of a plain child: separator, mark, one gap, value. */
  lemma PlainKidPrints(k: Kid)
    requires k.lead == [] && k.drop == []
    ensures PrintKid(k) == k.sep + (MarkText(k.mark) + (k.gap + (PrintNode(k.node) + k.tail)))
  {
    hide PrintNode, MarkText;
    assert KidHead(k) == k.sep + "" + MarkText(k.mark) + k.gap + "";
  }

  lemma {:induction false} FlowEntriesPrint(pairs: seq<Pair>, first: bool)
    ensures PrintKids(FlowEntries(pairs, first)) == (if first || pairs == [] then "" else ", ") + FlowPairs(pairs)
    decreases pairs, 0
  {
    hide PrintKid, FlowNode, Quote, PrintNode, FlowText, PrintKids;
    if pairs == [] {
      NoKids();
    } else {
      var p := pairs[0];
      var k := FlowEntry(first, p.key, p.val);
      FlowNodePrints(p.val);
      PlainKidPrints(k);
      FlowEntriesPrint(pairs[1..], false);
      KidsCons(k, FlowEntries(pairs[1..], false));
      FlowPairsGlue(if first then "" else ", ", Quote(p.key), FlowText(p.val),
                    if |pairs| == 1 then "" else ", " + FlowPairs(pairs[1..]));
      assert |pairs| == 1 ==> pairs[1..] == [];
    }
  }

  lemma FlowPairsGlue(sep: string, q: string, f: string, rest: string)
    ensures (sep + ((q + "" + ":") + (" " + (f + "")))) + rest == sep + (q + ": " + f + rest)
  {
  }

  lemma FlowItemsGlue(sep: string, f: string, rest: string)
    ensures (sep + ("" + ("" + (f + "")))) + rest == sep + (f + rest)
  {
  }

  lemma {:induction false} FlowListPrints(items: seq<Value>, first: bool)
    ensures PrintKids(FlowList(items, first)) == (if first || items == [] then "" else ", ") + FlowItems(items)
    decreases items, 0
  {
    hide PrintKid, FlowNode, PrintNode, FlowText, PrintKids;
    if items == [] {
      NoKids();
    } else {
      var k := FlowItem(first, items[0]);
      FlowNodePrints(items[0]);
      PlainKidPrints(k);
      FlowListPrints(items[1..], false);
      KidsCons(k, FlowList(items[1..], false));
      FlowItemsGlue(if first then "" else ", ", FlowText(items[0]),
                    if |items| == 1 then "" else ", " + FlowItems(items[1..]));
      assert |items| == 1 ==> items[1..] == [];
    }
  }

  lemma {:induction false} FlowNodeValue(v: Value)
    ensures NodeValue(FlowNode(v)) == v && Spelled(FlowNode(v))
    decreases v
  {
    hide FlowEntries, ReadScalar, ScalarText, KeySpelled;
    if v.Dict? {
      var pairs := v.pairs;
      forall i | 0 <= i < |pairs|
        ensures var k := FlowEntries(pairs, true)[i];
                && Pair(KidName(k), NodeValue(k.node)) == pairs[i] && KeySpelled(k.mark) && Spelled(k.node)
      {
        FlowNodeValue(pairs[i].val);
        QuotedKeySpelled(pairs[i].key);
      }
    } else if v.List? {
      var items := v.items;
      forall i | 0 <= i < |items|
        ensures var k := FlowList(items, true)[i];
                NodeValue(k.node) == items[i] && KeySpelled(k.mark) && Spelled(k.node)
      {
        FlowNodeValue(items[i]);
        NoKeySpelled(FlowList(items, true)[i].mark);
      }
    } else {
      ScalarTextReads(v);
    }
  }

  lemma QuotedKeySpelled(key: string)
    ensures KeySpelled(Key(Quote(key), "", key))
  {
    hide ReadScalar, ReadPlain, Quote;
    ScalarTextReads(Str(key));
  }

  lemma NoKeySpelled(mark: Mark)
    requires !mark.Key?
    ensures KeySpelled(mark)
  {
  }

  lemma QuoteOneLine(text: string)
    ensures OneLine(Quote(text)) && Quote(text) != "" && Quote(text)[0] == '\"'
  {
    hide JsonBody, Escape;
    QuoteShape(text);
    BodyOneLine(text);
  }

  lemma {:induction false} BodyOneLine(text: string)
    ensures OneLine(Escape(JsonBody(text)))
  {
    if text == "" {
    } else {
      EscapeConcat(JsonChar(text[0]), JsonBody(text[1..]));
      BodyOneLine(text[1..]);
      CharOneLine(text[0]);
    }
  }

  lemma CharOneLine(c: char)
    ensures OneLine(QuotedChar(c))
  {
    hide QuotedChar, Hex4, Escape, HexCode;
    QuotedCharCases(c);
    if ByCode(c) {
      HexSafe(c as int);
    }
  }

  lemma ScalarTextOneLine(v: Value)
    requires !v.List? && !v.Dict?
    ensures OneLine(ScalarText(v)) && ScalarText(v) != ""
  {
    hide ReadScalar, ReadPlain, Quote;
    ScalarTextReads(v);
    if v.Str? {
      QuoteOneLine(v.text);
    }
  }

  lemma CommaSpace()
    ensures Comma(", ")
  {
    assert ", "[0] == ',' && ", "[..0] == "" && ", "[1..] == " ";
    assert FlowBlank(" ") by { assert " "[1..] == ""; }
  }

  lemma SpaceBlank()
    ensures FlowBlank(" ") && FlowBlank("") && AllSpaces(" ") && Trailing("")
  {
    assert " "[1..] == "";
  }

  // ------------------------------------------------- keys of a readable length

  /** A key's text is short enough for YAML to read it as a key. */
  predicate KeyFits(key: string) {
    |KeyText(key)| <= KEY_LIMIT
  }

  /** The same of a key in quotes. */
  predicate QuotedKeyFits(key: string) {
    |Quote(key)| <= KEY_LIMIT
  }

  /** Every key of a value written in flow style is. */
  predicate FlowKeys(v: Value)
    decreases v
  {
    match v
    case Dict(pairs) => forall i | 0 <= i < |pairs| :: QuotedKeyFits(pairs[i].key) && FlowKeys(pairs[i].val)
    case List(items) => forall i | 0 <= i < |items| :: FlowKeys(items[i])
    case _ => true
  }

  /** Every key of a value written in block style is. */
  predicate BlockKeys(v: Value)
    requires NonemptyCollection(v)
    decreases v, 0
  {
    if v.Dict? then forall i | 0 <= i < |v.pairs| :: EntryKeys(v.pairs[i].key, v.pairs[i].val, false)
    else forall i | 0 <= i < |v.items| :: ItemKeys(v.items[i])
  }

  predicate ValueKeys(v: Value, flow: bool)
    decreases v, 1
  {
    if flow || !NonemptyCollection(v) then FlowKeys(v) else BlockKeys(v)
  }

  predicate EntryKeys(key: string, v: Value, flow: bool)
    decreases v, 2
  {
    KeyFits(key) && ValueKeys(v, flow)
  }

  predicate ItemKeys(v: Value)
    decreases v, 1
  {
    if v.Dict? && v.pairs != [] then BlockKeys(v) else FlowKeys(v)
  }

  lemma QuotedKeyOk(key: string)
    ensures KeyOk(Key(Quote(key), "", key)) <==> QuotedKeyFits(key)
    ensures InQuotes(Quote(key))
  {
    hide ReadScalar, ReadPlain, Quote;
    QuoteOneLine(key);
    ScalarTextReads(Str(key));
  }

  lemma FlowKidsOk(first: bool, key: string, v: Value)
    ensures FlowKidOk(FlowEntry(first, key, v), first, true) <==> QuotedKeyFits(key)
    ensures FlowKidOk(FlowItem(first, v), first, false)
  {
    hide PrintNode, FlowBlank, Comma, KeyOk, Quote, InQuotes, QuotedKeyFits, FlowNode, LastLiteral;
    CommaSpace();
    SpaceBlank();
    QuotedKeyOk(key);
    FlowNodePlain(v);
  }

  /** A value whose text is a plain scalar. */
  predicate Unquoted(v: Value) {
    !v.Str? && !v.List? && !v.Dict?
  }

  lemma FlowTouchable(k: Kid, v: Value)
    requires k.node == FlowNode(v)
    ensures Touchable(k) <==> !Unquoted(v)
  {
    hide ReadScalar, ReadPlain, OneLine;
    if v.Str? {
      QuoteOneLine(v.text);
    } else if Unquoted(v) {
      ScalarTextReads(v);
    }
  }

  lemma FlowNodePlain(v: Value)
    ensures !IsBlockNode(FlowNode(v)) && (FlowNode(v).Scalar? ==> FlowNode(v).src != "")
    ensures FlowNode(v).Coll? ==> FlowNode(v).flow
    ensures LastLiteral(FlowNode(v)) == None
  {
    hide ScalarText;
    if !v.Dict? && !v.List? {
      ScalarTextOneLine(v);
    }
  }

  lemma {:induction false} FlowNodeOk(v: Value)
    ensures NodeOk(FlowNode(v)) <==> FlowKeys(v)
    decreases v
  {
    hide *;
    if v.Dict? {
      forall i | 0 <= i < |v.pairs| {
        FlowNodeOk(v.pairs[i].val);
      }
      FlowDictOk(v.pairs);
    } else if v.List? {
      forall i | 0 <= i < |v.items| {
        FlowNodeOk(v.items[i]);
      }
      FlowListOk(v.items);
    } else {
      FlowScalarOk(v);
    }
  }

  lemma FlowScalarOk(v: Value)
    requires !v.Dict? && !v.List?
    ensures NodeOk(FlowNode(v)) && FlowKeys(v)
  {
    hide ReadScalar, ScalarText, ReadPlain;
    ScalarTextOneLine(v);
    ScalarTextReads(v);
  }

  /** A flow collection is well formed when its children are. */
  lemma FlowCollOk(isMap: bool, kids: seq<Kid>)
    requires forall i | 0 < i < |kids| :: kids[i].sep == ", "
    ensures NodeOk(Coll(true, isMap, 0, kids, ""))
            <==> forall i | 0 <= i < |kids| :: NodeOk(kids[i].node) && FlowKidOk(kids[i], i == 0, isMap)
  {
    hide FlowKidOk;
    SpaceBlank();
    assert Clear(kids, "") by { hide Touchable; }
  }

  lemma FlowDictOk(pairs: seq<Pair>)
    requires forall i | 0 <= i < |pairs| :: NodeOk(FlowNode(pairs[i].val)) <==> FlowKeys(pairs[i].val)
    ensures NodeOk(FlowNode(Dict(pairs))) <==> FlowKeys(Dict(pairs))
  {
    hide FlowKidOk, QuotedKeyFits, NodeOk, FlowEntries;
    var kids := FlowEntries(pairs, true);
    forall i | 0 <= i < |kids|
      ensures NodeOk(kids[i].node) <==> FlowKeys(pairs[i].val)
      ensures FlowKidOk(kids[i], i == 0, true) <==> QuotedKeyFits(pairs[i].key)
    {
      FlowKidsOk(i == 0, pairs[i].key, pairs[i].val);
    }
    FlowCollOk(true, kids);
  }

  lemma FlowListOk(items: seq<Value>)
    requires forall i | 0 <= i < |items| :: NodeOk(FlowNode(items[i])) <==> FlowKeys(items[i])
    ensures NodeOk(FlowNode(List(items))) <==> FlowKeys(List(items))
  {
    hide FlowKidOk, NodeOk, FlowList, QuotedKeyFits;
    var kids := FlowList(items, true);
    forall i | 0 <= i < |kids|
      ensures NodeOk(kids[i].node) <==> FlowKeys(items[i])
      ensures FlowKidOk(kids[i], i == 0, false)
    {
      FlowKidsOk(i == 0, "", items[i]);
    }
    FlowCollOk(false, kids);
  }

  // ------------------------------------------------------------ block style

  /** The line break and indentation before every child but the first. */
  function Lead(first: bool, nl: string, col: nat): seq<Br> {
    if first then [] else [Br(nl, col, "")]
  }

  function EntryKid(key: string, v: Value, col: nat, flow: bool, nl: string, lead: seq<Br>, tail: string): Kid
    decreases v, 1
  {
    var mark := Key(KeyText(key), "", key);
    if flow || !NonemptyCollection(v) then Kid("", lead, mark, " ", [], FlowNode(v), tail)
    else Kid("", lead, mark, "", [Br(nl, col + 2, "")], BlockNode(v, col + 2, nl, tail), "")
  }

  function ItemKid(v: Value, col: nat, nl: string, lead: seq<Br>, tail: string): Kid
    decreases v, 1
  {
    if v.Dict? && v.pairs != [] then Kid("", lead, Dash, " ", [], BlockNode(v, col + 2, nl, tail), "")
    else Kid("", lead, Dash, " ", [], FlowNode(v), tail)
  }

  /** A nonempty collection in block style; `tail` ends its last line. */
  function BlockNode(v: Value, col: nat, nl: string, tail: string): Node
    requires NonemptyCollection(v)
    decreases v, 0
  {
    if v.Dict? then Coll(false, true, col, EntryKids(v.pairs, col, nl, true, tail), "")
    else Coll(false, false, col, ItemKids(v.items, col, nl, true, tail), "")
  }

  function EntryKids(pairs: seq<Pair>, col: nat, nl: string, first: bool, tail: string): (kids: seq<Kid>)
    ensures |kids| == |pairs|
    ensures forall i | 0 <= i < |pairs| ::
              kids[i] == EntryKid(pairs[i].key, pairs[i].val, col, false, nl, Lead(first && i == 0, nl, col),
                                  if i == |pairs| - 1 then tail else "")
    decreases pairs, 0
  {
    if pairs == [] then []
    else
      [EntryKid(pairs[0].key, pairs[0].val, col, false, nl, Lead(first, nl, col), if |pairs| == 1 then tail else "")]
      + EntryKids(pairs[1..], col, nl, false, tail)
  }

  function ItemKids(items: seq<Value>, col: nat, nl: string, first: bool, tail: string): (kids: seq<Kid>)
    ensures |kids| == |items|
    ensures forall i | 0 <= i < |items| ::
              kids[i] == ItemKid(items[i], col, nl, Lead(first && i == 0, nl, col),
                if i == |items| - 1 then tail else "")
    decreases items, 0
  {
    if items == [] then []
    else
      [ItemKid(items[0], col, nl, Lead(first, nl, col), if |items| == 1 then tail else "")]
      + ItemKids(items[1..], col, nl, false, tail)
  }

  /** A block child's text after its lead. */
  lemma BlockKidPrints(k: Kid)
    requires k.sep == ""
    ensures PrintKid(k)
            == PrintBrs(k.lead) + (MarkText(k.mark) + (k.gap + (PrintBrs(k.drop) + (PrintNode(k.node) + k.tail))))
  {
    hide PrintNode, MarkText, PrintBrs;
    assert KidLead(k) == PrintBrs(k.lead);
  }

  lemma OneBr(nl: string, col: nat)
    ensures PrintBrs([Br(nl, col, "")]) == nl + Spaces(col)
  {
    hide Spaces;
    assert [Br(nl, col, "")][1..] == [];
  }

  lemma JoinCons(line: string, rest: seq<string>, nl: string)
    requires rest != []
    ensures Join([line] + rest, nl) == line + nl + Join(rest, nl)
  {
    assert ([line] + rest)[1..] == rest;
  }

  /** A prefix of the first line is a prefix of the joined text. */
  lemma JoinPrefix(p: string, x: string, rest: seq<string>, nl: string)
    ensures Join([p + x] + rest, nl) == p + Join([x] + rest, nl)
  {
    if rest == [] {
      assert [p + x] + rest == [p + x] && [x] + rest == [x];
    } else {
      JoinCons(p + x, rest, nl);
      JoinCons(x, rest, nl);
    }
  }

  lemma {:induction false} EntryPrints(key: string, v: Value, col: nat, flow: bool, nl: string, tail: string)
    ensures Spaces(col) + PrintKid(EntryKid(key, v, col, flow, nl, [], tail))
            == Join(EntryLines(key, v, col, flow), nl) + tail
    decreases v, 2
  {
    hide PrintKid, PrintNode, FlowNode, KeyText, Spaces, FlowText, PrintBrs, BlockNode;
    var k := EntryKid(key, v, col, flow, nl, [], tail);
    BlockKidPrints(k);
    assert PrintBrs([]) == "" by { EmptyBrs(); }
    if flow || !NonemptyCollection(v) {
      FlowNodePrints(v);
      InlineGlue(Spaces(col), KeyText(key), FlowText(v), tail);
    } else {
      OneBr(nl, col + 2);
      BlockPrints(v, col + 2, nl, tail);
      var body := if v.Dict? then PairLines(v.pairs, col + 2) else ItemLines(v.items, col + 2);
      JoinCons(Spaces(col) + KeyText(key) + ":", body, nl);
      HeaderGlue(Spaces(col), KeyText(key), nl, Spaces(col + 2), PrintNode(k.node), tail, Join(body, nl));
    }
  }

  lemma InlineGlue(s: string, key: string, f: string, t: string)
    ensures s + ("" + ((key + "" + ":") + (" " + ("" + (f + t))))) == s + key + ": " + f + t
  {
  }

  lemma HeaderGlue(s: string, key: string, n: string, p: string, b: string, t: string, j: string)
    requires p + b == j + t
    ensures s + ("" + ((key + "" + ":") + ("" + ((n + p) + (b + ""))))) == (s + key + ":") + n + j + t
  {
    assert (s + key + ":") + n + j + t == (s + key + ":") + n + (j + t);
  }

  lemma EmptyBrs()
    ensures PrintBrs([]) == ""
  {
  }

  lemma BodyJoined(value: Value, dash: nat, nl: string)
    requires value.Dict? && value.pairs != []
    ensures var body := PairLines(value.pairs, dash + 2);
            Join(body, nl) == Spaces(dash + 2) + Join([body[0][dash + 2..]] + body[1..], nl)
  {
    hide *;
    var body := PairLines(value.pairs, dash + 2);
    var x := body[0][dash + 2..];
    assert body == [Spaces(dash + 2) + x] + body[1..] by { assert body[0] == body[0][..dash + 2] + x; }
    JoinPrefix(Spaces(dash + 2), x, body[1..], nl);
  }

  lemma IndentGlue(s: string, p: string, j: string, t: string)
    requires s + p == (s + j) + t
    ensures p == j + t
  {
    assert p == (s + p)[|s|..] && j + t == ((s + j) + t)[|s|..];
  }

  lemma ItemBodyOf(value: Value, dash: nat)
    requires value.Dict? && value.pairs != []
    ensures var body := PairLines(value.pairs, dash + 2);
            ItemBody(value, dash) == [Spaces(dash) + "- " + body[0][dash + 2..]] + body[1..]
    ensures |Spaces(dash) + "- "| == dash + 2
  {
  }

  lemma {:induction false} ItemPrints(v: Value, col: nat, nl: string, tail: string)
    ensures Spaces(col) + PrintKid(ItemKid(v, col, nl, [], tail)) == Join(ItemBody(v, col), nl) + tail
    decreases v, 2
  {
    hide PrintKid, PrintNode, FlowNode, BlockNode, PrintBrs, PairLines;
    var k := ItemKid(v, col, nl, [], tail);
    BlockKidPrints(k);
    EmptyBrs();
    if v.Dict? && v.pairs != [] {
      BlockPrints(v, col + 2, nl, tail);
      BodyJoined(v, col, nl);
      ItemBodyOf(v, col);
      var body := PairLines(v.pairs, col + 2);
      var rest := [body[0][col + 2..]] + body[1..];
      IndentGlue(Spaces(col + 2), PrintNode(k.node), Join(rest, nl), tail);
      JoinPrefix(Spaces(col) + "- ", body[0][col + 2..], body[1..], nl);
      DashGlue(Spaces(col), PrintNode(k.node), Join(rest, nl), tail);
    } else {
      assert ItemBody(v, col) == [Spaces(col) + "- " + FlowText(v)] by { hide FlowText, Spaces; }
      FlowNodePrints(v);
      DashGlue(Spaces(col), FlowText(v) + tail, FlowText(v), tail);
      var f := FlowText(v);
      assert (f + tail) + "" == f + tail;
      var line := Spaces(col) + "- " + FlowText(v);
      assert Join([line], nl) == line;
    }
  }

  lemma DashGlue(s: string, b: string, j: string, t: string)
    requires b == j + t
    ensures s + ("" + ("-" + (" " + ("" + (b + ""))))) == s + "- " + j + t
  {
    assert s + "- " + j + t == s + "- " + (j + t);
  }

  lemma BareBlock(n: Node)
    requires n.Coll? && !n.flow && n.close == ""
    ensures PrintNode(n) == PrintKids(n.kids)
  {
    hide PrintKids;
  }

  /** A block collection printed is its lines joined, without the first line's indentation. */
  lemma {:induction false} BlockPrints(v: Value, col: nat, nl: string, tail: string)
    requires NonemptyCollection(v)
    ensures Spaces(col) + PrintNode(BlockNode(v, col, nl, tail))
            == Join(if v.Dict? then PairLines(v.pairs, col) else ItemLines(v.items, col), nl) + tail
    decreases v, 1
  {
    hide PrintKids, EntryKids, ItemKids, Spaces, PairLines, ItemLines, Join, PrintNode;
    if v.Dict? {
      EntryKidsPrint(v.pairs, col, nl, true, tail);
    } else {
      ItemKidsPrint(v.items, col, nl, true, tail);
    }
    BareBlock(BlockNode(v, col, nl, tail));
  }

  lemma LeadPrints(k: Kid, lead: seq<Br>)
    requires k.sep == "" && k.lead == []
    ensures PrintKid(k.(lead := lead)) == PrintBrs(lead) + PrintKid(k)
  {
    hide *;
    BlockKidPrints(k);
    BlockKidPrints(k.(lead := lead));
    EmptyBrs();
  }

  lemma {:induction false} EntryKidsPrint(pairs: seq<Pair>, col: nat, nl: string, first: bool, tail: string)
    requires pairs != []
    ensures (if first then Spaces(col) else "") + PrintKids(EntryKids(pairs, col, nl, first, tail))
            == (if first then "" else nl) + Join(PairLines(pairs, col), nl) + tail
    decreases pairs, 0
  {
    hide PrintKid, EntryKid, Spaces, PrintBrs, PrintKids;
    var end := if |pairs| == 1 then tail else "";
    var p := pairs[0];
    var k := EntryKid(p.key, p.val, col, false, nl, [], end);
    EntryPrints(p.key, p.val, col, false, nl, end);
    EntryKidLead(p.key, p.val, col, nl, Lead(first, nl, col), end);
    LeadPrints(k, Lead(first, nl, col));
    LeadText(first, nl, col);
    KidsCons(k.(lead := Lead(first, nl, col)), EntryKids(pairs[1..], col, nl, false, tail));
    if |pairs| > 1 {
      EntryKidsPrint(pairs[1..], col, nl, false, tail);
      assert Join(PairLines(pairs, col), nl)
             == Join(EntryLines(pairs[0].key, pairs[0].val, col, false), nl)
             + (nl + Join(PairLines(pairs[1..], col), nl)) by {
        hide EntryLines, Join;
        var a, b := EntryLines(pairs[0].key, pairs[0].val, col, false), PairLines(pairs[1..], col);
        JoinConcat(a, b, nl);
        assert Join(a, nl) + nl + Join(b, nl) == Join(a, nl) + (nl + Join(b, nl));
      }
      KidsGlue(if first then Spaces(col) else "", if first then "" else nl, PrintBrs(Lead(first, nl, col)),
               Spaces(col), PrintKid(k),
               PrintKids(EntryKids(pairs[1..], col, nl, false, tail)), Join(EntryLines(p.key, p.val, col, false), nl),
                         "",
               nl + Join(PairLines(pairs[1..], col), nl), tail);
      assert "" + tail == tail;
    } else {
      assert EntryKids(pairs[1..], col, nl, false, tail) == [];
      OnePairLines(p, col);
      assert pairs == [p];
      assert Join(PairLines(pairs, col), nl) + "" == Join(PairLines(pairs, col), nl);
      NoKids();
      KidsGlue(if first then Spaces(col) else "", if first then "" else nl, PrintBrs(Lead(first, nl, col)),
               Spaces(col), PrintKid(k),
               "", Join(EntryLines(p.key, p.val, col, false), nl), tail, "", "");
      assert tail + "" == tail;
    }
  }

  lemma LeadText(first: bool, nl: string, col: nat)
    ensures (if first then Spaces(col) else "") + PrintBrs(Lead(first, nl, col))
            == (if first then "" else nl) + Spaces(col)
  {
    hide PrintBrs;
    OneBr(nl, col);
    EmptyBrs();
  }

  lemma OnePairLines(p: Pair, col: nat)
    ensures PairLines([p], col) == EntryLines(p.key, p.val, col, false)
  {
    hide EntryLines;
    assert PairLines([p], col)
           == EntryLines(p.key, p.val, col, false) + PairLines([], col) by { assert [p][1..] == []; }
  }

  lemma KidsCons(k: Kid, rest: seq<Kid>)
    ensures PrintKids([k] + rest) == PrintKid(k) + PrintKids(rest)
  {
    hide PrintKid;
    assert ([k] + rest)[1..] == rest;
  }

  lemma NoKids()
    ensures PrintKids([]) == ""
  {
  }

  /** One more child in front: `open` is the first child's indentation, `brk` a later one's line break. */
  lemma KidsGlue(open: string, brk: string, lead: string, pad: string, kid: string, rest: string, line: string,
          end: string, more: string, t: string)
    requires open + lead == brk + pad && pad + kid == line + end && rest == more + t
    requires end == "" || (more == "" && t == "")
    ensures open + ((lead + kid) + rest) == brk + (line + more) + (end + t)
  {
    assert open + ((lead + kid) + rest) == (open + lead) + kid + rest == brk + (pad + kid) + rest;
  }

  lemma EntryKidLead(key: string, v: Value, col: nat, nl: string, lead: seq<Br>, tail: string)
    ensures var k := EntryKid(key, v, col, false, nl, [], tail);
            k.sep == "" && k.lead == [] && EntryKid(key, v, col, false, nl, lead, tail) == k.(lead := lead)
  {
    hide FlowNode, BlockNode;
  }

  lemma ItemKidLead(v: Value, col: nat, nl: string, lead: seq<Br>, tail: string)
    ensures var k := ItemKid(v, col, nl, [], tail);
            k.sep == "" && k.lead == [] && ItemKid(v, col, nl, lead, tail) == k.(lead := lead)
  {
    hide FlowNode, BlockNode;
  }

  lemma {:induction false} ItemKidsPrint(items: seq<Value>, col: nat, nl: string, first: bool, tail: string)
    requires items != []
    ensures (if first then Spaces(col) else "") + PrintKids(ItemKids(items, col, nl, first, tail))
            == (if first then "" else nl) + Join(ItemLines(items, col), nl) + tail
    decreases items, 0
  {
    hide PrintKid, ItemKid, Spaces, PrintBrs, PrintKids, Join;
    var end := if |items| == 1 then tail else "";
    var k := ItemKid(items[0], col, nl, [], end);
    ItemPrints(items[0], col, nl, end);
    ItemKidLead(items[0], col, nl, Lead(first, nl, col), end);
    LeadPrints(k, Lead(first, nl, col));
    LeadText(first, nl, col);
    KidsCons(k.(lead := Lead(first, nl, col)), ItemKids(items[1..], col, nl, false, tail));
    if |items| > 1 {
      ItemKidsPrint(items[1..], col, nl, false, tail);
      ItemLinesJoin(items, col, nl);
      KidsGlue(if first then Spaces(col) else "", if first then "" else nl, PrintBrs(Lead(first, nl, col)),
               Spaces(col), PrintKid(k),
               PrintKids(ItemKids(items[1..], col, nl, false, tail)), Join(ItemBody(items[0], col), nl), "",
               nl + Join(ItemLines(items[1..], col), nl), tail);
      assert "" + tail == tail;
    } else {
      assert ItemKids(items[1..], col, nl, false, tail) == [];
      assert ItemLines([items[0]], col) == ItemBody(items[0], col) by {
        hide ItemBody;
        assert ItemLines([items[0]], col)
               == ItemBody(items[0], col) + ItemLines([], col) by { assert [items[0]][1..] == []; }
      }
      assert items == [items[0]];
      assert Join(ItemLines(items, col), nl) + "" == Join(ItemLines(items, col), nl);
      NoKids();
      KidsGlue(if first then Spaces(col) else "", if first then "" else nl, PrintBrs(Lead(first, nl, col)),
               Spaces(col), PrintKid(k),
               "", Join(ItemBody(items[0], col), nl), tail, "", "");
      assert tail + "" == tail;
    }
  }

  lemma ItemLinesJoin(items: seq<Value>, col: nat, nl: string)
    requires |items| > 1
    ensures Join(ItemLines(items, col), nl)
            == Join(ItemBody(items[0], col), nl) + (nl + Join(ItemLines(items[1..], col), nl))
  {
    hide ItemBody, Join;
    var a, b := ItemBody(items[0], col), ItemLines(items[1..], col);
    JoinConcat(a, b, nl);
    assert Join(a, nl) + nl + Join(b, nl) == Join(a, nl) + (nl + Join(b, nl));
  }

  lemma {:induction false} BlockNodeValue(v: Value, col: nat, nl: string, tail: string)
    requires NonemptyCollection(v)
    ensures NodeValue(BlockNode(v, col, nl, tail)) == v && Spelled(BlockNode(v, col, nl, tail))
    decreases v, 1
  {
    hide EntryKid, ItemKid, EntryKids, ItemKids, KeySpelled;
    if v.Dict? {
      var kids := EntryKids(v.pairs, col, nl, true, tail);
      forall i | 0 <= i < |kids|
        ensures Pair(KidName(kids[i]), NodeValue(kids[i].node)) == v.pairs[i]
        ensures KeySpelled(kids[i].mark) && Spelled(kids[i].node)
      {
        EntryKidValue(v.pairs[i].key, v.pairs[i].val, col, false, nl, Lead(i == 0, nl, col),
                      if i == |v.pairs| - 1 then tail else "");
      }
    } else {
      var kids := ItemKids(v.items, col, nl, true, tail);
      forall i | 0 <= i < |kids|
        ensures NodeValue(kids[i].node) == v.items[i] && KeySpelled(kids[i].mark) && Spelled(kids[i].node)
      {
        ItemKidValue(v.items[i], col, nl, Lead(i == 0, nl, col), if i == |v.items| - 1 then tail else "");
      }
    }
  }

  lemma {:induction false} EntryKidValue(key: string, v: Value, col: nat, flow: bool, nl: string, lead: seq<Br>,
          tail: string)
    ensures var k := EntryKid(key, v, col, flow, nl, lead, tail);
            KidName(k) == key && NodeValue(k.node) == v && KeySpelled(k.mark) && Spelled(k.node)
    decreases v, 2
  {
    hide BlockNode, FlowNode, NodeValue, Spelled, ReadScalar, KeyText;
    KeyTextReads(key);
    if flow || !NonemptyCollection(v) {
      FlowNodeValue(v);
    } else {
      BlockNodeValue(v, col + 2, nl, tail);
    }
  }

  lemma {:induction false} ItemKidValue(v: Value, col: nat, nl: string, lead: seq<Br>, tail: string)
    ensures var k := ItemKid(v, col, nl, lead, tail);
            NodeValue(k.node) == v && KeySpelled(k.mark) && Spelled(k.node)
    decreases v, 2
  {
    hide BlockNode, FlowNode, NodeValue, Spelled, ReadScalar;
    if v.Dict? && v.pairs != [] {
      BlockNodeValue(v, col + 2, nl, tail);
    } else {
      FlowNodeValue(v);
    }
  }

  /** A key is written as one that YAML reads back exactly when its text is not too long. */
  lemma KeyTextOk(key: string)
    ensures KeySound(Key(KeyText(key), "", key)) <==> KeyFits(key)
    ensures KeyOk(Key(KeyText(key), "", key)) <==> KeyFits(key)
  {
    hide ReadScalar, Quote;
    KeyTextReads(key);
    QuoteOneLine(key);
  }

  lemma LeadOk(first: bool, nl: string, col: nat)
    requires LineBreak(nl)
    ensures if first then Lead(first, nl, col) == [] else Leads(Lead(first, nl, col), col)
  {
  }

  /** A value written inline after its mark. */
  lemma InlinePlaced(k: Kid, col: nat, v: Value)
    requires k.gap == " " && k.drop == [] && Trailing(k.tail) && k.node == FlowNode(v)
    ensures Placed(k, col)
  {
    hide FlowNode, Trailing;
    FlowNodePlain(v);
  }

  lemma {:induction false} EntryKidOk(key: string, v: Value, col: nat, flow: bool, nl: string, lead: seq<Br>,
          tail: string, first: bool)
    requires LineBreak(nl) && Trailing(tail) && (if first then lead == [] else Leads(lead, col))
    ensures var k := EntryKid(key, v, col, flow, nl, lead, tail);
            && (BlockKidOk(k, col, first, true) <==> KeyFits(key)) && (NodeOk(k.node) <==> ValueKeys(v, flow))
            && LastLiteral(k.node) == None
    decreases v, 2
  {
    hide NodeOk, FlowNode, BlockNode, KeyOk, KeyFits, KeyText, LastLiteral, FlowKeys, BlockKeys, KeySound;
    KeyTextOk(key);
    if flow || !NonemptyCollection(v) {
      FlowNodeOk(v);
      FlowNodePlain(v);
      hide Placed;
      InlinePlaced(EntryKid(key, v, col, flow, nl, lead, tail), col, v);
    } else {
      BlockNodeOk(v, col + 2, nl, tail);
    }
  }

  lemma {:induction false} ItemKidOk(v: Value, col: nat, nl: string, lead: seq<Br>, tail: string, first: bool)
    requires LineBreak(nl) && Trailing(tail) && (if first then lead == [] else Leads(lead, col))
    ensures var k := ItemKid(v, col, nl, lead, tail);
            BlockKidOk(k, col, first, false) && (NodeOk(k.node) <==> ItemKeys(v)) && LastLiteral(k.node) == None
    decreases v, 2
  {
    hide NodeOk, FlowNode, BlockNode, LastLiteral, FlowKeys, BlockKeys;
    if v.Dict? && v.pairs != [] {
      BlockNodeOk(v, col + 2, nl, tail);
    } else {
      FlowNodeOk(v);
      FlowNodePlain(v);
      hide Placed;
      InlinePlaced(ItemKid(v, col, nl, lead, tail), col, v);
    }
  }

  lemma {:induction false} BlockNodeOk(v: Value, col: nat, nl: string, tail: string)
    requires NonemptyCollection(v) && LineBreak(nl) && Trailing(tail)
    ensures var n := BlockNode(v, col, nl, tail);
            && n.Coll? && !n.flow && n.col == col && n.isMap == v.Dict? && n.kids != []
            && (NodeOk(n) <==> BlockKeys(v)) && LastLiteral(n) == None
    decreases v, 1
  {
    hide BlockKidOk, EntryKid, ItemKid, Leads, Trailing, KeyFits, ValueKeys, ItemKeys;
    assert Trailing("") by { SpaceBlank(); }
    var kids := BlockNode(v, col, nl, tail).kids;
    forall i | 0 <= i < |kids|
      ensures LastLiteral(kids[i].node) == None
      ensures if v.Dict? then
                (BlockKidOk(kids[i], col, i == 0, true) && NodeOk(kids[i].node))
                  <==> EntryKeys(v.pairs[i].key, v.pairs[i].val, false)
              else BlockKidOk(kids[i], col, i == 0, false) && (NodeOk(kids[i].node) <==> ItemKeys(v.items[i]))
    {
      LeadOk(i == 0, nl, col);
      var end := if i == |kids| - 1 then tail else "";
      if v.Dict? {
        EntryKidOk(v.pairs[i].key, v.pairs[i].val, col, false, nl, Lead(i == 0, nl, col), end, i == 0);
      } else {
        ItemKidOk(v.items[i], col, nl, Lead(i == 0, nl, col), end, i == 0);
      }
    }
    forall i | 0 <= i < |kids| - 1 ensures Follows(kids[i].node, kids[i + 1].lead) {
      assert LastLiteral(kids[i].node) == None;
    }
  }
}
