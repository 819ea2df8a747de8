/** A first key in a file that has only comments and blank lines, or nothing at all. */
module YamlAppend {
  import opened Text
  import opened YamlValue
  import opened YamlEmit
  import opened YamlBlock
  import opened YamlTree
  import opened YamlBuild
  import opened YamlEdit
  import opened YamlMarks
  import opened YamlSplice
  import opened YamlSplicePrints
  import opened YamlSetPrints
  import opened YamlFits
  import opened YamlRemovePrints

  /** A file with no value in it: its first line, then comment and blank lines. */
  predicate Comments(head: string, lines: seq<Br>) {
    OneLine(head) && Remark(head) && forall b | b in lines :: Trivia(b)
  }

  function CommentText(head: string, lines: seq<Br>): string {
    head + PrintBrs(lines)
  }

  /** The lines before the first key: the file's own, and a line break where it ends without one. */
  function LinesBefore(text: string, lines: seq<Br>, nl: string): seq<Br> {
    if text == "" || text[|text| - 1] == '\n' then lines else lines + [Br(nl, 0, "")]
  }

  function FirstDoc(head: string, lines: seq<Br>, key: string, v: Value, flow: bool): Doc {
    var text := CommentText(head, lines);
    var nl := Newline(text);
    Doc(Kid("", [], Bare, head, LinesBefore(text, lines, nl),
        Coll(false, true, 0, [EntryKid(key, v, 0, flow, nl, [], "")], ""), ""),
        [Br(nl, 0, "")])
  }

  lemma LeadsFirst(head: string, lines: seq<Br>)
    requires Comments(head, lines)
    ensures var text := CommentText(head, lines);
            var drop := LinesBefore(text, lines, Newline(text));
            if drop == [] then head == "" else Leads(drop, 0)
  {
    hide PrintBrs, Newline, Remark, PrintBr;
    var text := CommentText(head, lines);
    NewlineOk(text);
    if lines == [] {
      EmptyBrs();
      assert text == head;
    } else {
      var last := lines[|lines| - 1];
      assert last in lines;
      LastBr(lines);
      var front := head + PrintBrs(lines[..|lines| - 1]);
      assert text == front + PrintBr(last);
      EndsOpen(front, last);
    }
  }

  /** A text ends in a line break only after an empty last line. */
  lemma EndsOpen(front: string, b: Br)
    requires Trivia(b)
    ensures var text := front + PrintBr(b); text != "" && (text[|text| - 1] == '\n' ==> b.pad == 0 && b.note == "")
  {
    var text := front + PrintBr(b);
    assert PrintBr(b) != "";
    assert text[|text| - 1] == PrintBr(b)[|PrintBr(b)| - 1];
  }

  lemma FirstPrints(head: string, lines: seq<Br>, key: string, v: Value, flow: bool)
    ensures var text := CommentText(head, lines);
            var nl := Newline(text);
            var lead := if text == "" || text[|text| - 1] == '\n' then "" else nl;
            text + lead + Join(EntryLines(key, v, 0, flow), nl) + nl == PrintDoc(FirstDoc(head, lines, key, v, flow))
  {
    hide PrintKid, PrintNode, EntryKid, EntryLines, Join, PrintBrs, Newline, Spaces;
    var text := CommentText(head, lines);
    var nl := Newline(text);
    var d := FirstDoc(head, lines, key, v, flow);
    var kid := EntryKid(key, v, 0, flow, nl, [], "");
    BareBlock(d.root.node);
    OneKid(kid);
    EntryPrints(key, v, 0, flow, nl, "");
    KidSplit(d.root);
    assert KidHead(d.root) == head + PrintBrs(d.root.drop) by { EmptyBrs(); assert "" + "" + "" + head == head; }
    OneBr(nl, 0);
    NoSpaces(nl);
    PrintBrsConcat(lines, [Br(nl, 0, "")]);
    assert Spaces(0) + PrintKid(kid) == PrintKid(kid) by { NoPad(PrintKid(kid)); }
    FirstGlueDoc(head, PrintBrs(lines), nl, PrintKid(kid), Join(EntryLines(key, v, 0, flow), nl));
  }

  lemma NoPad(s: string)
    ensures Spaces(0) + s == s
  {
  }

  lemma FirstGlueDoc(head: string, lines: string, nl: string, kid: string, entry: string)
    requires kid == entry + ""
    ensures (head + lines) + "" + entry + nl == ((head + lines) + kid + "") + nl
    ensures (head + lines) + nl + entry + nl == ((head + (lines + nl)) + kid + "") + nl
  {
  }

  lemma FirstPad(drop: seq<Br>)
    ensures Leads(drop, 0) ==> drop != [] && drop[|drop| - 1].pad == 0
  {
  }

  lemma FirstOk(head: string, lines: seq<Br>, key: string, v: Value, flow: bool)
    requires Comments(head, lines)
    ensures DocOk(FirstDoc(head, lines, key, v, flow)) <==> EntryKeys(key, v, flow)
    ensures DocValue(FirstDoc(head, lines, key, v, flow)) == Dict([Pair(key, v)])
  {
    hide EntryKid, BlockKidOk, PrintNode, PrintKids, Newline, Leads, LinesBefore, Remark, LastLiteral, NodeOk,
         KeyFits, ValueKeys, CommentText;
    var text := CommentText(head, lines);
    var nl := Newline(text);
    var d := FirstDoc(head, lines, key, v, flow);
    NewlineOk(text);
    assert Trailing("") by { SpaceBlank(); }
    LeadsFirst(head, lines);
    SingleEntryOk(key, v, 0, flow, nl, "");
    BareBlock(d.root.node);
    MarkShown(d.root.node.kids) by { EntryShown(key, v, flow, nl); }
    NoneFollows(d.root.node, d.end);
    EntryKidValue(key, v, 0, flow, nl, [], "");
    FirstPad(d.root.drop);
  }

  lemma EntryShown(key: string, v: Value, flow: bool, nl: string)
    ensures MarkText(EntryKid(key, v, 0, flow, nl, [], "").mark) != ""
  {
    hide FlowNode, BlockNode;
  }

  /**
   `set_value` on such a file: the text it returns is the printing of a document whose value is
   `_with` of an empty mapping, well formed exactly when no key is too long to be read, and it
   refuses exactly a first part that is no key or a list that does not start at its first item.
   */
  lemma AppendDocumentReadsBack(head: string, lines: seq<Br>, path: seq<Part>, value: Value, flow: bool)
    requires Comments(head, lines) && !HasUnicodeBreak(CommentText(head, lines)) && path != []
    ensures var r := SetValue(CommentText(head, lines), None, path, value, flow);
            && (r.Err? <==> !path[0].Name? || Nested(path[1..], value).Err?)
            && (r.Ok? ==>
                  var e := FirstDoc(head, lines, path[0].name, Nested(path[1..], value).value, flow);
                  && r == Ok(PrintDoc(e)) && With(Dict([]), path, value) == Some(DocValue(e))
                  && (DocOk(e) <==> EntryKeys(path[0].name, Nested(path[1..], value).value, flow)))
  {
    hide PrintDoc, DocOk, FirstDoc, CommentText, HasUnicodeBreak, Newline, Join, EntryLines, Nested, With, DocValue,
         EntryKeys;
    if path[0].Name? && Nested(path[1..], value).Ok? {
      var v := Nested(path[1..], value).value;
      FirstPrints(head, lines, path[0].name, v, flow);
      FirstOk(head, lines, path[0].name, v, flow);
      WithNew(Dict([]), path, value, v);
      var key := path[0].name;
      assert Put(Dict([]), Name(key), v) == Some(Dict([Pair(key, v)])) by {
        var none: seq<Pair> := [];
        assert none + [Pair(key, v)] == [Pair(key, v)];
      }
    }
  }
}
