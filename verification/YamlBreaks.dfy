/**
 An edit adds no Unicode line break: a document the splicer accepts is still one it
 accepts after any run of edits, whatever the values written hold.
 */
module YamlBreaks {
  import opened Text
  import opened Decimal
  import opened YamlValue
  import opened YamlEmit
  import opened YamlBlock
  import opened YamlEdit
  import YamlFits

  predicate Clean(s: string) {
    forall i | 0 <= i < |s| :: s[i] as int !in {0x85, 0x2028, 0x2029}
  }

  predicate CleanLines(lines: seq<string>) {
    forall i | 0 <= i < |lines| :: Clean(lines[i])
  }

  lemma CleanCat(a: string, b: string)
    requires Clean(a) && Clean(b)
    ensures Clean(a + b)
  {
  }

  lemma CleanCat3(a: string, b: string, c: string)
    requires Clean(a) && Clean(b) && Clean(c)
    ensures Clean(a + b + c)
  {
  }

  lemma CleanCat5(a: string, b: string, c: string, d: string, e: string)
    requires Clean(a) && Clean(b) && Clean(c) && Clean(d) && Clean(e)
    ensures Clean(a + b + c + d + e)
  {
  }

  lemma CleanParts(text: string, i: nat, j: nat)
    requires Clean(text)
    ensures Clean(Upto(text, i)) && Clean(From(text, i)) && Clean(Slice(text, i, j))
  {
  }

  lemma {:induction false} CleanJoin(lines: seq<string>, nl: string)
    requires CleanLines(lines) && Clean(nl)
    ensures Clean(Join(lines, nl))
  {
    if |lines| > 1 {
      CleanJoin(lines[1..], nl);
      CleanCat3(lines[0], nl, Join(lines[1..], nl));
    }
  }

  lemma CleanSpaces(n: nat)
    ensures Clean(Spaces(n))
  {
  }

  lemma {:induction false} EscapeClean(s: string)
    ensures Clean(Escape(s))
  {
    hide HexCode;
    if s == "" {
    } else {
      EscapeClean(s[1..]);
      if Unsafe(s[0]) {
        HexSafe(s[0] as int);
      }
    }
  }

  lemma DigitsClean(s: string)
    requires forall i | 0 <= i < |s| :: IsDigit(s[i]) || s[i] in "-+.e"
    ensures Clean(s)
  {
  }

  lemma ScalarClean(v: Value)
    requires !v.List? && !v.Dict?
    ensures Clean(ScalarText(v))
  {
    hide FloatText, Repr, Quote, IntText;
    match v {
      case Null => {}
      case Bool(_) => {}
      case Int(n) => IntClean(n);
      case Real(f) =>
        FloatTextOf(f);
        assert Clean(ExponentText(f.exponent)) by { DigitsClean(ExponentText(f.exponent)); }
        DigitsClean(Head(f));
        DigitsClean(f.fraction);
        CleanCat5(Head(f), ".", f.fraction, ExponentText(f.exponent), "");
        assert Head(f) + "." + f.fraction + ExponentText(f.exponent) + ""
               == Head(f) + ("." + (f.fraction + ExponentText(f.exponent)));
      case Str(text) => QuoteClean(text);
    }
  }

  lemma QuoteClean(text: string)
    ensures Clean(Quote(text))
  {
    EscapeClean("\"" + JsonBody(text) + "\"");
  }

  lemma IntClean(n: int)
    ensures Clean(IntText(n))
  {
  }

  lemma KeyClean(key: string)
    ensures Clean(KeyText(key))
  {
    hide ReadPlain, Quote;
    QuoteClean(key);
    if Word(key) { assert Clean(key); }
  }

  lemma {:induction false} FlowClean(v: Value)
    ensures Clean(FlowText(v))
    decreases v
  {
    hide ScalarText, FlowPairs, FlowItems;
    match v {
      case Dict(pairs) => FlowPairsClean(pairs);
      case List(items) => FlowItemsClean(items);
      case _ => ScalarClean(v);
    }
  }

  lemma {:induction false} FlowItemsClean(items: seq<Value>)
    ensures Clean(FlowItems(items))
    decreases items
  {
    hide FlowText;
    if items == [] {
    } else {
      FlowClean(items[0]);
      FlowItemsClean(items[1..]);
    }
  }

  lemma {:induction false} FlowPairsClean(pairs: seq<Pair>)
    ensures Clean(FlowPairs(pairs))
    decreases pairs
  {
    hide FlowText, Quote;
    if pairs == [] {
    } else {
      QuoteClean(pairs[0].key);
      FlowClean(pairs[0].val);
      FlowPairsClean(pairs[1..]);
      var rest := if |pairs| == 1 then "" else ", " + FlowPairs(pairs[1..]);
      assert Clean(rest) by { CleanCat(", ", FlowPairs(pairs[1..])); }
      CleanCat5(Quote(pairs[0].key), ": ", FlowText(pairs[0].val), rest, "");
      assert Quote(pairs[0].key) + ": " + FlowText(pairs[0].val) + rest + ""
             == Quote(pairs[0].key) + ": " + FlowText(pairs[0].val) + rest;
    }
  }

  lemma {:induction false} EntryClean(key: string, v: Value, indent: nat, flow: bool)
    ensures CleanLines(EntryLines(key, v, indent, flow))
    decreases v, 1
  {
    hide FlowText, KeyText, Spaces, Clean, PairLines;
    KeyClean(key);
    CleanSpaces(indent);
    assert Clean(": ") && Clean(":") by { Ascii(); }
    FlowClean(v);
    CleanCat3(Spaces(indent), KeyText(key), ":");
    CleanCat3(Spaces(indent), KeyText(key), ": ");
    CleanCat(Spaces(indent) + KeyText(key) + ": ", FlowText(v));
    if !(flow || !NonemptyCollection(v)) {
      if v.Dict? { PairsClean(v.pairs, indent + 2); } else { ItemsClean(v.items, indent + 2); }
    }
  }

  lemma Ascii()
    ensures Clean(": ") && Clean(":") && Clean("- ") && Clean(", ") && Clean("") && Clean(" ")
    ensures Clean("[") && Clean("]") && Clean("{") && Clean("}") && Clean("|") && Clean("|-") && Clean("\n")
            && Clean("\r\n")
  {
  }

  lemma {:induction false} PairsClean(pairs: seq<Pair>, indent: nat)
    ensures CleanLines(PairLines(pairs, indent))
    decreases pairs, 0
  {
    hide EntryLines, Clean;
    if pairs == [] {
    } else {
      EntryClean(pairs[0].key, pairs[0].val, indent, false);
      PairsClean(pairs[1..], indent);
    }
  }

  lemma {:induction false} ItemClean(item: Value, indent: nat)
    ensures CleanLines(ItemBody(item, indent))
    decreases item, 0
  {
    hide PairLines, FlowText, Spaces, Clean;
    Ascii();
    CleanSpaces(indent);
    FlowClean(item);
    CleanCat3(Spaces(indent), "- ", FlowText(item));
    if item.Dict? && item.pairs != [] {
      PairsClean(item.pairs, indent + 2);
      var body := PairLines(item.pairs, indent + 2);
      assert Clean(body[0][indent + 2..]) by { CleanFrom(body[0], indent + 2); }
      CleanCat3(Spaces(indent), "- ", body[0][indent + 2..]);
    }
  }

  lemma CleanFrom(s: string, i: nat)
    requires Clean(s) && i <= |s|
    ensures Clean(s[i..])
  {
  }

  lemma {:induction false} ItemsClean(items: seq<Value>, indent: nat)
    ensures CleanLines(ItemLines(items, indent))
    decreases items, 0
  {
    hide ItemBody, Clean;
    if items == [] {
    } else {
      ItemClean(items[0], indent);
      ItemsClean(items[1..], indent);
    }
  }

  lemma LiteralClean(text: string, indent: nat)
    requires BlockScalar(text, indent).Some?
    ensures CleanLines(BlockScalar(text, indent).value)
  {
    hide FirstText, SplitLines, Blank;
    var raw := SplitLines(Body(text));
    assert Clean(Body(text)) by { assert forall i | 0 <= i < |text| :: !Unsafe(text[i]); }
    var body := Body(text);
    assert CleanLines(SplitLines(body)) by {
      hide SplitLines;
      YamlFits.SplitChars(body, 0x85 as char);
      YamlFits.SplitChars(body, 0x2028 as char);
      YamlFits.SplitChars(body, 0x2029 as char);
    }
    var lines := Indented(raw, indent);
    forall i | 0 <= i < |lines| ensures Clean(lines[i]) {
      CleanCat(Spaces(indent), raw[i]);
    }
  }

  lemma NewlineClean(text: string)
    ensures Clean(Newline(text))
  {
  }

  lemma LiteralEditClean(text: string, key: CKey, node: CNode, value: string, end: nat)
    requires Clean(text) && ReplaceBlockScalar(text, key, node, value, end).Some?
    ensures Clean(ReplaceBlockScalar(text, key, node, value, end).value)
  {
    hide Clean, BlockScalar, Newline, HeaderEnd, Slice, Upto, From, Eol, Column, Join;
    var lines := BlockScalar(value, Column(text, key.start) + 2).value;
    LiteralClean(value, Column(text, key.start) + 2);
    var headEnd := Eol(text, node.start);
    var h := HeaderEnd(text, node.start, headEnd);
    var after := match h case None => "" case Some(h) => Slice(text, h, headEnd);
    Ascii();
    NewlineClean(text);
    CleanParts(text, node.start, 0);
    CleanParts(text, end, 0);
    if h.Some? { CleanParts(text, h.value, headEnd); }
    var nl := Newline(text);
    var first := if lines == [] then "" else lines[0];
    var rest := lines[if lines == [] then 0 else 1..];
    CleanJoin(rest, nl);
    CleanCat5(Upto(text, node.start), first, after, nl, Join(rest, nl));
    CleanCat(Upto(text, node.start) + first + after + nl + Join(rest, nl), From(text, end));
  }

  lemma ItemEditClean(text: string, slot: Slot, value: Value, asBlock: bool)
    requires Clean(text)
    ensures Clean(ReplaceItem(text, slot, value, asBlock))
  {
    hide Clean, ContentEnd, Newline, Upto, From, Eol, Column, Join, FlowText, ItemLines;
    var node := slot.value;
    var end := if IsBlock(node) then Eol(text, ContentEnd(text, node)) else node.end;
    CleanParts(text, node.start, 0);
    CleanParts(text, end, 0);
    FlowClean(value);
    CleanCat3(Upto(text, node.start), FlowText(value), From(text, end));
    var dash := if slot.parent.CColl? || slot.parent.CScalar? then Column(text, slot.parent.start) else 0;
    var lines := ItemLines([value], dash);
    ItemsClean([value], dash);
    NewlineClean(text);
    CleanFrom(lines[0], dash + 2);
    CleanJoin([lines[0][dash + 2..]] + lines[1..], Newline(text));
    CleanCat3(Upto(text, node.start), Join([lines[0][dash + 2..]] + lines[1..], Newline(text)), From(text, end));
  }

  lemma ReplaceClean(text: string, slot: Slot, value: Value, flow: bool)
    requires Clean(text) && Replace(text, slot, value, flow).Ok?
    ensures Clean(Replace(text, slot, value, flow).value)
  {
    hide Clean, ContentEnd, Newline, Upto, From, Slice, Eol, Column, Join, FlowText, ReplaceItem, ReplaceBlockScalar,
         FindChar;
    var node, nl := slot.value, Newline(text);
    if slot.key.None? {
      ItemEditClean(text, slot, value,
                    NonemptyCollection(value) && !flow && !(node.CColl? && node.flow && node.value != [])
                    && !InFlow(Some(slot)));
    } else {
      var key := slot.key.value;
      var colon := FindChar(text, ':', key.end).value;
      var end := if IsBlock(node) then Eol(text, ContentEnd(text, node)) else node.end;
      if node.CScalar? && IsBlock(node) && value.Str? && ReplaceBlockScalar(text, key, node, value.text, end).Some? {
        LiteralEditClean(text, key, node, value.text, end);
      } else {
        var indent := if node.CColl? && IsBlock(node) then Column(text, node.start) else Column(text, key.start) + 2;
        var lines := Join(CollectionLines(value, indent), nl);
        var lineEnd := Eol(text, end);
        Ascii();
        NewlineClean(text);
        FlowClean(value);
        assert CleanLines(CollectionLines(value, indent)) by {
          hide PairLines, ItemLines;
          if value.Dict? { PairsClean(value.pairs, indent); } else if value.List? { ItemsClean(value.items, indent); }
        }
        CleanJoin(CollectionLines(value, indent), nl);
        CleanParts(text, colon + 1, 0);
        CleanParts(text, end, lineEnd);
        CleanParts(text, lineEnd, 0);
        CleanCat(Upto(text, colon + 1) + " " + FlowText(value),
                 From(text, end)) by { CleanCat3(Upto(text, colon + 1), " ", FlowText(value)); }
        CleanCat(Upto(text, colon + 1) + nl + lines,
                 From(text, end)) by { CleanCat3(Upto(text, colon + 1), nl, lines); }
        CleanCat5(Upto(text, colon + 1), Slice(text, end, lineEnd), nl, lines, From(text, lineEnd));
      }
    }
  }

  lemma AppendClean(text: string, holder: Option<Slot>, list: CNode, value: Value, flow: bool)
    requires Clean(text) && list.CColl? && Append(text, holder, list, value, flow).Ok?
    ensures Clean(Append(text, holder, list, value, flow).value)
  {
    hide Clean, ContentEnd, Newline, Upto, From, Eol, Column, Join, FlowText, ItemLines, FindChar;
    var nl := Newline(text);
    Ascii();
    NewlineClean(text);
    FlowClean(value);
    if list.flow && list.value != [] {
      var at := ContentEnd(text, list.value[|list.value| - 1].value);
      CleanParts(text, at, 0);
      CleanCat(Upto(text, at) + ", " + FlowText(value),
               From(text, at)) by { CleanCat3(Upto(text, at), ", ", FlowText(value)); }
    } else if list.flow && holder.Some? && holder.value.key.Some? && !flow && !InFlow(holder) {
      var key := holder.value.key.value;
      var colon := FindChar(text, ':', key.end).value;
      GrownClean(text, colon + 1, list.end, nl, ItemLines([value], Column(text, key.start) + 2)) by {
        ItemsClean([value], Column(text, key.start) + 2);
      }
    } else if list.flow {
      CleanParts(text, list.start, 0);
      CleanParts(text, list.end, 0);
      CleanCat5(Upto(text, list.start), "[", FlowText(value), "]", From(text, list.end));
    } else {
      var at := Eol(text, ContentEnd(text, list));
      GrownClean(text, at, at, nl,
                 ItemLines([value], Column(text, list.start))) by { ItemsClean([value], Column(text, list.start)); }
    }
  }

  lemma GrownClean(text: string, i: nat, j: nat, lead: string, lines: seq<string>)
    requires Clean(text) && Clean(lead) && CleanLines(lines)
    ensures Clean(Upto(text, i) + lead + Join(lines, Newline(text)) + From(text, j))
  {
    hide Clean, Newline, Upto, From, Join;
    CleanParts(text, i, 0);
    CleanParts(text, j, 0);
    NewlineClean(text);
    CleanJoin(lines, Newline(text));
    CleanCat3(Upto(text, i), lead, Join(lines, Newline(text)));
    CleanCat(Upto(text, i) + lead + Join(lines, Newline(text)), From(text, j));
  }

  lemma InsertClean(text: string, holder: Option<Slot>, mapping: CNode, key: string, value: Value, flow: bool)
    requires Clean(text) && mapping.CColl? && Insert(text, holder, mapping, key, value, flow).Ok?
    ensures Clean(Insert(text, holder, mapping, key, value, flow).value)
  {
    hide Clean, ContentEnd, Newline, Upto, From, Eol, Column, Join, FlowText, EntryLines, FindChar, Quote;
    var nl := Newline(text);
    Ascii();
    NewlineClean(text);
    FlowClean(value);
    QuoteClean(key);
    var entry := Quote(key) + ": " + FlowText(value);
    CleanCat3(Quote(key), ": ", FlowText(value));
    if mapping.flow && mapping.value != [] {
      var at := ContentEnd(text, mapping.value[|mapping.value| - 1].value);
      CleanParts(text, at, 0);
      CleanCat(Upto(text, at) + ", " + entry, From(text, at)) by { CleanCat3(Upto(text, at), ", ", entry); }
    } else if mapping.flow && (holder.None? || holder.value.key.None? || InFlow(holder)) {
      CleanParts(text, mapping.start, 0);
      CleanParts(text, mapping.end, 0);
      CleanCat5(Upto(text, mapping.start), "{", entry, "}", From(text, mapping.end));
    } else if mapping.flow {
      var held := holder.value.key.value;
      var colon := FindChar(text, ':', held.end).value;
      EntryClean(key, value, Column(text, held.start) + 2, flow);
      GrownClean(text, colon + 1, mapping.end, nl, EntryLines(key, value, Column(text, held.start) + 2, flow));
    } else {
      var indent := if mapping.value != [] && mapping.value[0].key.Some?
                    then Column(text, mapping.value[0].key.value.start) else 0;
      var at := Eol(text, ContentEnd(text, mapping));
      EntryClean(key, value, indent, flow);
      CleanCat(nl, nl);
      GrownClean(text, at, at, if holder.None? then nl + nl else nl, EntryLines(key, value, indent, flow));
    }
  }

  lemma FinishClean(text: string, holder: Option<Slot>, stop: CNode, rest: seq<Part>, value: Value, flow: bool)
    requires rest == [] ==> holder.Some?
    requires Clean(text) && Finish(text, holder, stop, rest, value, flow).Ok?
    ensures Clean(Finish(text, holder, stop, rest, value, flow).value)
  {
    hide Clean, Replace, Append, Insert, Nested;
    if rest == [] {
      ReplaceClean(text, holder.value, value, flow);
    } else if stop.CColl? && !stop.isMap && rest[0].Index? {
      AppendClean(text, holder, stop, Nested(rest[1..], value).value, flow);
    } else if stop.CColl? && stop.isMap && rest[0].Name? {
      InsertClean(text, holder, stop, rest[0].name, Nested(rest[1..], value).value, flow);
    } else {
      ReplaceClean(text, holder.value, Nested(rest, value).value, flow);
    }
  }

  /** Whatever the marks and the value, an accepted edit leaves a text the next edit accepts. */
  lemma SetKeepsBreaks(text: string, root: Option<CNode>, path: seq<Part>, value: Value, flow: bool)
    requires SetValue(text, root, path, value, flow).Ok?
    ensures !HasUnicodeBreak(SetValue(text, root, path, value, flow).value)
  {
    hide Finish, Walk, AppendDocument;
    assert Clean(text);
    if root.Some? {
      var w := Walk(root.value, path).value;
      FinishClean(text, LastSlot(w.slots), w.stop, path[|w.slots|..], value, flow);
    } else {
      DocumentClean(text, path, value, flow);
    }
  }

  lemma DocumentClean(text: string, path: seq<Part>, value: Value, flow: bool)
    requires Clean(text) && path != [] && AppendDocument(text, path, value, flow).Ok?
    ensures Clean(AppendDocument(text, path, value, flow).value)
  {
    hide Clean, Newline, Join, EntryLines, Nested;
    var nl := Newline(text);
    var v := Nested(path[1..], value).value;
    Ascii();
    NewlineClean(text);
    EntryClean(path[0].name, v, 0, flow);
    CleanJoin(EntryLines(path[0].name, v, 0, flow), nl);
    var lead := if text == "" || text[|text| - 1] == '\n' then "" else nl;
    CleanCat(text + lead + Join(EntryLines(path[0].name, v, 0, flow), nl), nl) by {
      CleanCat3(text, lead, Join(EntryLines(path[0].name, v, 0, flow), nl));
    }
  }
}
