/**
 Whether a redacted message is the one that was sent (core/tstd/cli_turn.py): each marker
 stands for at least one character.
 */
module RedactionMatch {
  import opened Text

  const REDACTED := "[REDACTED]"

  /** `text.split(mark)`. */
  function Split(text: string, mark: string): (pieces: seq<string>)
    requires mark != ""
    ensures pieces != []
    decreases |text|
  {
    match FindText(text, mark, 0)
    case None => [text]
    case Some(i) => [text[..i]] + Split(text[i + |mark|..], mark)
  }

  /** The pieces joined by the mark are the text again, and no piece holds a mark. */
  lemma {:induction false} SplitPieces(text: string, mark: string)
    requires mark != ""
    ensures Join(Split(text, mark), mark) == text
    ensures forall p | p in Split(text, mark) :: FindText(p, mark, 0).None?
    ensures |Split(text, mark)| > 1 <==> FindText(text, mark, 0).Some?
    decreases |text|
  {
    var at := FindText(text, mark, 0);
    if at.Some? {
      var i := at.value;
      SplitPieces(text[i + |mark|..], mark);
      var head, rest := text[..i], Split(text[i + |mark|..], mark);
      assert ([head] + rest)[1..] == rest;
      assert text == head + mark + text[i + |mark|..];
      forall j | 0 <= j ensures !Occurs(head, mark, j) {
        if Occurs(head, mark, j) {
          assert text[j..j + |mark|] == head[j..j + |mark|];
          assert Occurs(text, mark, j);
        }
      }
    }
  }

  /** The text with its markers replaced by `fills`, one each. */
  function Filled(pieces: seq<string>, fills: seq<string>): string
    requires |pieces| == |fills| + 1
  {
    if fills == [] then pieces[0] else pieces[0] + (fills[0] + Filled(pieces[1..], fills[1..]))
  }

  predicate NoneEmpty(fills: seq<string>) {
    forall i | 0 <= i < |fills| :: fills[i] != ""
  }

  /** Some nonempty texts for the markers turn `logged` into `sent`. */
  ghost predicate Unredacts(logged: string, sent: string) {
    exists fills :: FillsTo(logged, sent, fills)
  }

  predicate FillsTo(logged: string, sent: string, fills: seq<string>) {
    var pieces := Split(logged, REDACTED);
    |fills| + 1 == |pieces| && NoneEmpty(fills) && Filled(pieces, fills) == sent
  }

  /**
   The loop's question at `pos`: can the pieces, each after a nonempty fill, be placed in
   order from there, the last one at the end?
   */
  ghost predicate Placeable(pieces: seq<string>, sent: string, pos: int)
    requires pieces != []
    decreases |pieces|
  {
    if |pieces| == 1 then Occurs(sent, pieces[0], |sent| - |pieces[0]|) && |sent| - |pieces[0]| >= pos + 1
    else exists i :: i >= pos + 1 && Occurs(sent, pieces[0], i) && Placeable(pieces[1..], sent, i + |pieces[0]|)
  }

  /** Earlier leaves more room. */
  lemma {:induction false} PlaceEarlier(pieces: seq<string>, sent: string, pos: int, pos': int)
    requires pieces != [] && Placeable(pieces, sent, pos) && pos' <= pos
    ensures Placeable(pieces, sent, pos')
  {
    if |pieces| > 1 {
      var i :| i >= pos + 1 && Occurs(sent, pieces[0], i) && Placeable(pieces[1..], sent, i + |pieces[0]|);
      assert i >= pos' + 1;
    }
  }

  /** So the earliest place of the next piece is as good as any. */
  lemma EarliestIsEnough(pieces: seq<string>, sent: string, pos: nat)
    requires |pieces| > 1
    ensures var at := FindText(sent, pieces[0], pos + 1);
            Placeable(pieces, sent, pos) <==> at.Some? && Placeable(pieces[1..], sent, at.value + |pieces[0]|)
  {
    hide FindText;
    var at := FindText(sent, pieces[0], pos + 1);
    if Placeable(pieces, sent, pos) {
      var i :| i >= pos + 1 && Occurs(sent, pieces[0], i) && Placeable(pieces[1..], sent, i + |pieces[0]|);
      assert at.Some? && at.value <= i;
      PlaceEarlier(pieces[1..], sent, i + |pieces[0]|, at.value + |pieces[0]|);
    }
  }

  /** Placing the pieces is choosing the fills. */
  lemma {:induction false} PlacedIsFilled(pieces: seq<string>, sent: string, pos: nat)
    requires pieces != [] && pos <= |sent|
    ensures Placeable(pieces, sent, pos) <==>
            exists fills :: |fills| == |pieces| && NoneEmpty(fills) && Filled([""] + pieces, fills) == sent[pos..]
    decreases |pieces|
  {
    hide *;
    if Placeable(pieces, sent, pos) {
      var fills := FillsFor(pieces, sent, pos);
    }
    if exists fills :: |fills| == |pieces| && NoneEmpty(fills) && Filled([""] + pieces, fills) == sent[pos..] {
      var fills :| |fills| == |pieces| && NoneEmpty(fills) && Filled([""] + pieces, fills) == sent[pos..];
      FillsPlace(pieces, sent, pos, fills);
    }
  }

  lemma FirstFill(pieces: seq<string>, fills: seq<string>)
    requires pieces != [] && |fills| == |pieces|
    ensures ([""] + pieces)[1..] == pieces
    ensures Filled([""] + pieces, fills) == fills[0] + Filled(pieces, fills[1..])
  {
    assert ([""] + pieces)[1..] == pieces;
    var rest := fills[0] + Filled(pieces, fills[1..]);
    assert "" + rest == rest;
  }

  lemma {:induction false} FillsFor(pieces: seq<string>, sent: string, pos: nat) returns (fills: seq<string>)
    requires pieces != [] && pos <= |sent| && Placeable(pieces, sent, pos)
    ensures |fills| == |pieces| && NoneEmpty(fills) && Filled([""] + pieces, fills) == sent[pos..]
    decreases |pieces|
  {
    hide Filled;
    if |pieces| == 1 {
      fills := [sent[pos..|sent| - |pieces[0]|]];
      assert pieces == [pieces[0]];
      OneFill(pieces[0], sent, pos);
    } else {
      var i :| i >= pos + 1 && Occurs(sent, pieces[0], i) && Placeable(pieces[1..], sent, i + |pieces[0]|);
      hide Placeable, Filled;
      var rest := FillsFor(pieces[1..], sent, i + |pieces[0]|);
      fills := [sent[pos..i]] + rest;
      MoreFills(pieces, sent, pos, i, rest);
    }
  }

  lemma OneFill(piece: string, sent: string, pos: nat)
    requires Occurs(sent, piece, |sent| - |piece|) && |sent| - |piece| >= pos + 1
    ensures Filled([""] + [piece], [sent[pos..|sent| - |piece|]]) == sent[pos..]
  {
    hide Filled;
    var at := |sent| - |piece|;
    var fills := [sent[pos..at]];
    FirstFill([piece], fills);
    OnePiece(piece);
    assert fills[1..] == [];
    Sliced(sent, pos, at, |sent|);
    assert sent[at..] == sent[at..at + |piece|];
  }

  lemma MoreFills(pieces: seq<string>, sent: string, pos: nat, i: nat, rest: seq<string>)
    requires |pieces| > 1 && pos <= i && Occurs(sent, pieces[0], i) && |rest| == |pieces| - 1
    requires Filled([""] + pieces[1..], rest) == sent[i + |pieces[0]|..]
    ensures Filled([""] + pieces, [sent[pos..i]] + rest) == sent[pos..]
  {
    hide Filled;
    var fills := [sent[pos..i]] + rest;
    assert fills[1..] == rest;
    FirstFill(pieces, fills);
    FirstFill(pieces[1..], rest);
    MorePieces(pieces, rest);
    Sliced(sent, pos, i, i + |pieces[0]|);
  }

  lemma OnePiece(piece: string)
    ensures Filled([piece], []) == piece
  {
  }

  lemma MorePieces(pieces: seq<string>, fills: seq<string>)
    requires |pieces| == |fills| + 1 && fills != []
    ensures Filled(pieces, fills) == pieces[0] + (fills[0] + Filled(pieces[1..], fills[1..]))
  {
  }

  lemma Sliced(s: string, a: nat, b: nat, c: nat)
    requires a <= b <= c <= |s|
    ensures s[a..] == s[a..b] + s[b..] && s[a..] == s[a..b] + (s[b..c] + s[c..])
  {
  }

  lemma {:induction false} FillsPlace(pieces: seq<string>, sent: string, pos: nat, fills: seq<string>)
    requires pieces != [] && pos <= |sent| && |fills| == |pieces| && NoneEmpty(fills)
    requires Filled([""] + pieces, fills) == sent[pos..]
    ensures Placeable(pieces, sent, pos)
    decreases |pieces|
  {
    hide Filled, Occurs;
    FirstFill(pieces, fills);
    var i, rest := pos + |fills[0]|, fills[1..];
    Cut(sent, pos, fills[0], Filled(pieces, rest));
    if |pieces| == 1 {
      OnePiece(pieces[0]);
      assert rest == [] && pieces == [pieces[0]] && pieces[0] + "" == pieces[0];
      Cut(sent, i, pieces[0], "");
    } else {
      MorePieces(pieces, rest);
      FirstFill(pieces[1..], rest);
      Cut(sent, i, pieces[0], Filled([""] + pieces[1..], rest));
      FillsPlace(pieces[1..], sent, i + |pieces[0]|, rest);
    }
  }

  /** What stands at `i` in two parts. */
  lemma Cut(text: string, i: nat, part: string, more: string)
    requires i <= |text| && text[i..] == part + more
    ensures i + |part| <= |text| && Occurs(text, part, i) && text[i + |part|..] == more
  {
    assert text[i..i + |part|] == text[i..][..|part|] && text[i + |part|..] == text[i..][|part|..];
  }

  /** The fills of a whole text: its first piece, then the others placed after it. */
  lemma UnredactsIsPlaceable(logged: string, sent: string)
    requires |Split(logged, REDACTED)| > 1
    ensures var pieces := Split(logged, REDACTED);
            Unredacts(logged, sent) <==> Occurs(sent, pieces[0], 0) && Placeable(pieces[1..], sent, |pieces[0]|)
  {
    var pieces := Split(logged, REDACTED);
    if Unredacts(logged, sent) {
      var fills :| FillsTo(logged, sent, fills);
      assert Filled(pieces, fills) == pieces[0] + (fills[0] + Filled(pieces[1..], fills[1..]));
      FirstFill(pieces[1..], fills);
      assert sent[..|pieces[0]|] == pieces[0] == sent[0..0 + |pieces[0]|];
      PlacedIsFilled(pieces[1..], sent, |pieces[0]|);
    }
    if Occurs(sent, pieces[0], 0) && Placeable(pieces[1..], sent, |pieces[0]|) {
      var fills := FillsFor(pieces[1..], sent, |pieces[0]|);
      FirstFill(pieces[1..], fills);
      assert Filled(pieces, fills) == pieces[0] + (fills[0] + Filled(pieces[1..], fills[1..]));
      assert sent == sent[..|pieces[0]|] + sent[|pieces[0]|..];
      assert FillsTo(logged, sent, fills);
    }
  }

  /**
   `is_sent_message`: placing each literal piece as early as it will go. True exactly when the
   two texts are equal, or the logged one has a marker and some nonempty texts for its markers
   turn it into the one sent.
   */
  method IsSentMessage(logged: string, sent: string) returns (same: bool)
    ensures same <==> logged == sent || (FindText(logged, REDACTED, 0).Some? && Unredacts(logged, sent))
  {
    hide Unredacts, Split, FindText;
    if logged == sent {
      return true;
    }
    SplitPieces(logged, REDACTED);
    if FindText(logged, REDACTED, 0).None? {
      return false;
    }
    var pieces := Split(logged, REDACTED);
    UnredactsIsPlaceable(logged, sent);
    var head, tail := pieces[0], pieces[|pieces| - 1];
    if !(|head| <= |sent| && sent[..|head|] == head) {
      assert !Occurs(sent, head, 0);
      return false;
    }
    assert Occurs(sent, head, 0);
    var pos: nat := |head|;
    for k := 1 to |pieces| - 1
      invariant Placeable(pieces[k..], sent, pos) <==> Unredacts(logged, sent)
    {
      assert pieces[k..][1..] == pieces[k + 1..];
      EarliestIsEnough(pieces[k..], sent, pos);
      var found := FindText(sent, pieces[k], pos + 1);
      if found.None? {
        return false;
      }
      pos := found.value + |pieces[k]|;
    }
    assert pieces[|pieces| - 1..] == [tail];
    assert Placeable([tail], sent, pos) <==> |sent| - |tail| >= pos + 1 && sent[|sent| - |tail|..] == tail by {
      if |tail| <= |sent| {
        assert sent[|sent| - |tail|..] == sent[|sent| - |tail|..|sent| - |tail| + |tail|];
      }
    }
    same := |sent| - |tail| >= pos + 1 && sent[|sent| - |tail|..] == tail;
  }
}
