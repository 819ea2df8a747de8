/**
 Where an accepted edit does not read back: the text `set_value` returns is also the
 printing of another well-formed document, with another value.
 */
module YamlMisfits {
  import opened Text
  import opened Decimal
  import opened YamlValue
  import opened YamlEmit
  import opened YamlBlock
  import opened YamlTree
  import opened YamlBuild
  import opened YamlEdit
  import opened YamlSplice
  import opened YamlSplicePrints
  import opened YamlFits

  /** The key with nothing after its colon. */
  function Emptied(k: Kid): Kid {
    k.(gap := "", drop := [], node := Scalar("", Null), tail := "")
  }

  /** The key `i` emptied, and new keys after it. */
  function Spilled(n: Node, i: nat, pairs: seq<Pair>, nl: string): Node
    requires n.Coll? && i < |n.kids|
  {
    n.(kids := n.kids[..i] + ([Emptied(n.kids[i])] + EntryKids(pairs, n.col, nl, false, "")) + n.kids[i + 1..])
  }

  /** A mapping put over a list that stood at its key's own column. */
  predicate FlatReplaced(k: Kid, col: nat, value: Value) {
    && k.mark.Key? && k.node.Coll? && !k.node.flow && k.node.col == col
    && value.Dict? && value.pairs != []
  }

  /** The lines are those of an empty key and of more keys beside it. */
  lemma SpilledPrints(k: Kid, col: nat, value: Value, nl: string)
    requires FlatReplaced(k, col, value) && k.sep == ""
    ensures PrintKid(ReplaceKid(k, false, col, value, false, nl))
            == PrintKids([Emptied(k)] + EntryKids(value.pairs, col, nl, false, ""))
  {
    hide PrintKid, PrintNode, PrintKids, EntryKids, PairLines, Join, PrintBrs, Spaces, MarkText;
    assert ReplaceKid(k, false, col, value, false, nl)
           == k.(gap := "", drop := [Br(nl, col, "")], node := BlockNode(value, col, nl, ""), tail := "") by {
      hide BlockNode;
    }
    BlockKidPrints(ReplaceKid(k, false, col, value, false, nl));
    BlockKidPrints(Emptied(k));
    OneBr(nl, col);
    EmptyBrs();
    BlockPrints(value, col, nl, "");
    EntryKidsPrint(value.pairs, col, nl, false, "");
    KidsCons(Emptied(k), EntryKids(value.pairs, col, nl, false, ""));
    assert PrintNode(Scalar("", Null)) == "" by { NoScalar(); }
    SpillGlue(PrintBrs(k.lead), MarkText(k.mark), nl, Spaces(col), PrintNode(BlockNode(value, col, nl, "")),
              Join(PairLines(value.pairs, col), nl));
  }

  lemma NoScalar()
    ensures PrintNode(Scalar("", Null)) == ""
  {
  }

  lemma SpillGlue(lead: string, mark: string, nl: string, s: string, n: string, lines: string)
    requires s + n == lines + ""
    ensures lead + (mark + ("" + ((nl + s) + (n + ""))))
            == (lead + (mark + ("" + ("" + ("" + ""))))) + (nl + lines + "")
  {
    assert lead + (mark + ("" + ((nl + s) + (n + "")))) == lead + mark + nl + (s + n);
  }

  lemma SpilledNodePrints(n: Node, i: nat, value: Value, nl: string)
    requires n.Coll? && i < |n.kids| && FlatReplaced(n.kids[i], n.col, value) && n.kids[i].sep == ""
    ensures PrintNode(n.(kids := n.kids[i := ReplaceKid(n.kids[i], false, n.col, value, false, nl)]))
            == PrintNode(Spilled(n, i, value.pairs, nl))
  {
    hide PrintKid, EntryKids, PrintKids, ReplaceKid;
    var e := ReplaceKid(n.kids[i], false, n.col, value, false, nl);
    var g := n.(kids := n.kids[i := e]);
    var more := [Emptied(n.kids[i])] + EntryKids(value.pairs, n.col, nl, false, "");
    SpilledPrints(n.kids[i], n.col, value, nl);
    PrintKidsAt(g.kids, i);
    assert g.kids[..i] == n.kids[..i] && g.kids[i + 1..] == n.kids[i + 1..];
    PrintKidsConcat(n.kids[..i] + more, n.kids[i + 1..]);
    PrintKidsConcat(n.kids[..i], more);
  }

  lemma EmptiedOk(k: Kid, col: nat, first: bool)
    requires BlockKidOk(k, col, first, true)
    ensures BlockKidOk(Emptied(k), col, first, true) && NodeOk(Emptied(k).node) && LastLiteral(Emptied(k).node) == None
  {
    hide Leads, KeyOk;
    SpaceBlank();
  }

  /** Each key is short, and each value's keys. */
  predicate AllKeys(pairs: seq<Pair>) {
    forall i | 0 <= i < |pairs| :: EntryKeys(pairs[i].key, pairs[i].val, false)
  }

  lemma SpilledKid(n: Node, i: nat, pairs: seq<Pair>, nl: string, j: nat)
    requires n.Coll? && !n.flow && n.isMap && NodeOk(n) && i < |n.kids| && LineBreak(nl) && AllKeys(pairs)
    requires j < |n.kids| + |pairs|
    ensures var g := Spilled(n, i, pairs, nl);
            && |g.kids| == |n.kids| + |pairs|
            && NodeOk(g.kids[j].node) && BlockKidOk(g.kids[j], n.col, j == 0, true)
            && (i <= j <= i + |pairs| ==> LastLiteral(g.kids[j].node) == None)
            && (j < i ==> g.kids[j] == n.kids[j]) && (j > i + |pairs| ==> g.kids[j] == n.kids[j - |pairs|])
            && (j == i ==> g.kids[j].lead == n.kids[i].lead)
  {
    hide BlockKidOk, EntryKid, LastLiteral, Leads, Trailing, Follows, NodeOk, KidIn, KeyFits, ValueKeys, EntryKids,
         FlowBlank;
    var g := Spilled(n, i, pairs, nl);
    var more := EntryKids(pairs, n.col, nl, false, "");
    assert g.kids == n.kids[..i] + ([Emptied(n.kids[i])] + more) + n.kids[i + 1..];
    if j < i {
      ChildIn(n, j);
    } else if j == i {
      ChildIn(n, i);
      EmptiedOk(n.kids[i], n.col, i == 0);
    } else if j <= i + |pairs| {
      var p := pairs[j - i - 1];
      assert g.kids[j] == more[j - i - 1];
      LeadOk(false, nl, n.col);
      assert Trailing("") by { SpaceBlank(); }
      EntryKidOk(p.key, p.val, n.col, false, nl, Lead(false, nl, n.col), "", false);
    } else {
      ChildIn(n, j - |pairs|);
    }
  }

  lemma ChildIn(n: Node, j: nat)
    requires n.Coll? && !n.flow && NodeOk(n) && j < |n.kids|
    ensures NodeOk(n.kids[j].node) && BlockKidOk(n.kids[j], n.col, j == 0, n.isMap)
  {
    hide BlockKidOk, Follows;
  }

  lemma SpilledOk(n: Node, i: nat, pairs: seq<Pair>, nl: string)
    requires n.Coll? && !n.flow && n.isMap && NodeOk(n) && i < |n.kids| && LineBreak(nl) && AllKeys(pairs)
    ensures NodeOk(Spilled(n, i, pairs, nl))
  {
    hide BlockKidOk, EntryKids, LastLiteral, AllKeys;
    var g := Spilled(n, i, pairs, nl);
    SpilledKid(n, i, pairs, nl, i);
    forall j | 0 <= j < |g.kids| ensures NodeOk(g.kids[j].node) && BlockKidOk(g.kids[j], n.col, j == 0, true) {
      SpilledKid(n, i, pairs, nl, j);
    }
    forall j | 0 <= j < |g.kids| - 1 ensures Follows(g.kids[j].node, g.kids[j + 1].lead) {
      SpilledKid(n, i, pairs, nl, j);
      SpilledKid(n, i, pairs, nl, j + 1);
      if j < i {
        NextFollows(n, j);
      } else if j > i + |pairs| {
        NextFollows(n, j - |pairs|);
      }
    }
    NodeClose(n);
  }

  /** Replacing a top-level key's value, unfolded. */
  lemma EditTopKey(d: Doc, i: nat, name: string, value: Value)
    requires d.root.node.Coll? && d.root.node.isMap && !d.root.node.flow && i < |d.root.node.kids|
    requires StepKid(d.root.node, Name(name)) == Ok(Some(i)) && !HasUnicodeBreak(PrintDoc(d))
    ensures var n, nl := d.root.node, Newline(PrintDoc(d));
            var k := n.kids[i];
            var e := ReplaceKid(k, false, n.col, value, false, nl);
            && EditDoc(d, [Name(name)], value, false) == Ok(d.(root := d.root.(node := n.(kids := n.kids[i := e]))))
            && (DocFits(d, [Name(name)], value, false)
                <==> ReplaceFits(k, false, n.col, value, false, false, AfterKid(n, i, d.end)))
  {
    hide StepKid, HasUnicodeBreak, PrintDoc, Newline, ReplaceKid, ReplaceFits, Follows, AfterKid;
    var path, after := [Name(name)], AfterKid(d.root.node, i, d.end);
    assert path[1..] == [];
    var n, nl := d.root.node, Newline(PrintDoc(d));
    assert EditKid(n.kids[i], false, n.col, [], value, false, nl)
           == Ok(ReplaceKid(n.kids[i], false, n.col, value, false, nl));
    assert EditFits(n.kids[i], false, n.col, [], value, false, false, after)
           == ReplaceFits(n.kids[i], false, n.col, value, false, false, after);
    assert !TouchedKid(n, i);
  }

  /**
   A top-level key whose list is not indented, set to a mapping: the text reads back with
   the key null and the mapping's keys beside it (where these are short enough to be read at all),
   so the edit is one that does not fit.
   */
  lemma FlatListMisread(d: Doc, i: nat, name: string, value: Value)
    requires DocOk(d) && d.root.node.Coll? && !d.root.node.flow && d.root.node.isMap && i < |d.root.node.kids|
    requires StepKid(d.root.node, Name(name)) == Ok(Some(i)) && !HasUnicodeBreak(PrintDoc(d))
    requires FlatReplaced(d.root.node.kids[i], d.root.node.col, value)
    ensures var path := [Name(name)];
            var other := d.(root := d.root.(node := Spilled(d.root.node, i, value.pairs, Newline(PrintDoc(d)))));
            && EditDoc(d, path, value, false).Ok? && !DocFits(d, path, value, false)
            && PrintDoc(EditDoc(d, path, value, false).value) == PrintDoc(other)
            && (BlockKeys(value) ==> DocOk(other)) && With(DocValue(d), path, value) != Some(DocValue(other))
  {
    hide NodeOk, Spelled, PrintKids, HasUnicodeBreak, Newline, PrintBrs, KidHead, Follows, StepKid, ReplaceKid, With,
         EditDoc, DocFits, EditKid, LineBreak, AfterKid, EntryKeys, NodeValue, PrintKid;
    var path, nl, n := [Name(name)], Newline(PrintDoc(d)), d.root.node;
    var other := d.(root := d.root.(node := Spilled(n, i, value.pairs, nl)));
    var k := n.kids[i];
    NewlineOk(PrintDoc(d));
    ChildIn(n, i);
    assert k.sep == "";
    EditTopKey(d, i, name, value);
    SpilledNodePrints(n, i, value, nl);
    var e := EditDoc(d, path, value, false).value;
    SameHead(e.root, other.root);
    if BlockKeys(value) {
      SpilledOk(n, i, value.pairs, nl);
      BlockShown(other.root.node);
      SpilledShape(n, i, value.pairs, nl);
      assert RootOk(d.root.(node := Spilled(d.root.node, i, value.pairs, nl))) by {
        hide PrintNode, Leads, EntryKids;
      }
      SpilledSpelled(n, i, value.pairs, nl);
      SpilledEnd(n, i, value.pairs, nl, d.end);
    }
    EditDocValue(d, path, value, false);
    SpilledValue(n, i, value, nl);
  }

  lemma SameHead(a: Kid, b: Kid)
    requires PrintNode(a.node) == PrintNode(b.node) && b == a.(node := b.node)
    ensures PrintKid(a) == PrintKid(b)
  {
    hide PrintNode;
  }

  lemma SpilledEnd(n: Node, i: nat, pairs: seq<Pair>, nl: string, end: seq<Br>)
    requires n.Coll? && !n.flow && n.isMap && NodeOk(n) && i < |n.kids| && LineBreak(nl) && AllKeys(pairs)
             && Follows(n, end)
    ensures Follows(Spilled(n, i, pairs, nl), end)
  {
    hide NodeOk, BlockKidOk, EntryKids, Spilled, LastLiteral, AllKeys;
    var g := Spilled(n, i, pairs, nl);
    SpilledShape(n, i, pairs, nl);
    var last := |n.kids| + |pairs| - 1;
    SpilledKid(n, i, pairs, nl, last);
    LastChild(g);
    LastChild(n);
    assert LastLiteral(g) == None || LastLiteral(g) == LastLiteral(n);
  }

  lemma LastChild(n: Node)
    requires n.Coll? && !n.flow && n.kids != []
    ensures LastLiteral(n) == LastLiteral(n.kids[|n.kids| - 1].node)
  {
  }

  lemma SpilledShape(n: Node, i: nat, pairs: seq<Pair>, nl: string)
    requires n.Coll? && i < |n.kids|
    ensures var g := Spilled(n, i, pairs, nl);
            g.Coll? && g.flow == n.flow && g.isMap == n.isMap && g.col == n.col && g.kids != []
  {
    hide EntryKids;
  }

  lemma SpilledSpelled(n: Node, i: nat, pairs: seq<Pair>, nl: string)
    requires n.Coll? && i < |n.kids| && Spelled(n)
    ensures Spelled(Spilled(n, i, pairs, nl))
  {
    hide EntryKids, EntryKid, ReadPlain, KeySpelled, NodeValue;
    var g, more := Spilled(n, i, pairs, nl), EntryKids(pairs, n.col, nl, false, "");
    forall j | 0 <= j < |g.kids| ensures KeySpelled(g.kids[j].mark) && Spelled(g.kids[j].node) {
      if j == i {
        assert Spelled(Scalar("", Null)) by { EmptySpelled(); }
      } else if i < j <= i + |pairs| {
        var p := pairs[j - i - 1];
        assert g.kids[j] == more[j - i - 1];
        EntryKidValue(p.key, p.val, n.col, false, nl, Lead(false, nl, n.col), "");
      }
    }
  }

  lemma EmptySpelled()
    ensures Spelled(Scalar("", Null))
  {
    assert ReadScalar("") == Some(Null);
  }

  /** The two readings differ at the key itself: null, and the mapping. */
  lemma SpilledValue(n: Node, i: nat, value: Value, nl: string)
    requires n.Coll? && n.isMap && i < |n.kids| && value.Dict?
    ensures var e := ReplaceKid(n.kids[i], false, n.col, value, false, nl);
            NodeValue(Spilled(n, i, value.pairs, nl)) != NodeValue(n.(kids := n.kids[i := e]))
  {
    hide ReplaceKid, EntryKids, Spelled;
    var e := ReplaceKid(n.kids[i], false, n.col, value, false, nl);
    ReplaceValue(n.kids[i], false, n.col, value, false, nl);
    var a, b := Spilled(n, i, value.pairs, nl), n.(kids := n.kids[i := e]);
    assert a.kids[i] == Emptied(n.kids[i]) && b.kids[i] == e;
    assert NodeValue(a).pairs[i].val == NodeValue(Emptied(n.kids[i]).node);
    assert NodeValue(b).pairs[i].val == NodeValue(e.node);
  }
}
