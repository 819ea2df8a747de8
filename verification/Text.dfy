/** Strings as the splicer sees them: characters, line breaks and decimal numbers. */
module Text {

  datatype Option<+T> = None | Some(value: T)

  datatype Result<+T, +E> = Ok(value: T) | Err(error: E)

  function Spaces(n: nat): (s: string)
    ensures |s| == n && forall i | 0 <= i < n :: s[i] == ' '
  {
    if n == 0 then "" else " " + Spaces(n - 1)
  }

  predicate Lacks(s: string, c: char) {
    forall i | 0 <= i < |s| :: s[i] != c
  }

  /** No character of `s` breaks a line. */
  predicate OneLine(s: string) {
    Lacks(s, '\n') && Lacks(s, '\r')
  }

  /** The strings of `lines` with `sep` between neighbours, as `sep.join(lines)`. */
  function Join(lines: seq<string>, sep: string): string {
    if lines == [] then ""
    else if |lines| == 1 then lines[0]
    else lines[0] + sep + Join(lines[1..], sep)
  }

  lemma {:induction false} JoinConcat(a: seq<string>, b: seq<string>, sep: string)
    requires a != [] && b != []
    ensures Join(a + b, sep) == Join(a, sep) + sep + Join(b, sep)
  {
    if |a| == 1 {
      assert (a + b)[1..] == b;
    } else {
      assert (a + b)[1..] == a[1..] + b;
      JoinConcat(a[1..], b, sep);
    }
  }

  /** `text.find("\n", at)`, with the length of `text` for "not found". */
  function NextBreak(text: string, at: nat): (found: nat)
    ensures found <= |text| && (at <= |text| ==> at <= found)
    ensures found < |text| ==> text[found] == '\n'
    ensures forall i | at <= i < found :: text[i] != '\n'
    decreases |text| - at
  {
    if at >= |text| then |text| else if text[at] == '\n' then at else NextBreak(text, at + 1)
  }

  /** `text.rfind("\n", 0, index) + 1`. */
  function LineStart(text: string, index: nat): (start: nat)
    ensures start <= index && start <= |text|
    ensures start > 0 ==> text[start - 1] == '\n'
    ensures forall i | start <= i < index && i < |text| :: text[i] != '\n'
  {
    if index > |text| then LineStart(text, |text|)
    else if index == 0 || text[index - 1] == '\n' then index
    else LineStart(text, index - 1)
  }

  /** Where the line holding `index` ends, before its line break. */
  function Eol(text: string, index: nat): (end: nat)
    ensures end <= |text|
  {
    var found := NextBreak(text, index);
    if found == |text| then |text|
    else if found > 0 && text[found - 1] == '\r' then found - 1
    else found
  }

  /** The start of the line after the one whose content ends at `end`. */
  function NextLine(text: string, end: nat): (start: nat)
    ensures start <= |text|
  {
    if end >= |text| then |text|
    else if end + 1 < |text| && text[end] == '\r' && text[end + 1] == '\n' then end + 2
    else end + 1
  }

  /** `text[:i]`, `text[i:]` and `text[i:j]`. */
  function Upto(text: string, i: nat): string {
    if i <= |text| then text[..i] else text
  }

  function From(text: string, i: nat): string {
    if i <= |text| then text[i..] else ""
  }

  function Slice(text: string, i: nat, j: nat): string {
    From(Upto(text, j), i)
  }

  /** A mark's column: characters since the last line break. */
  function Column(text: string, index: nat): nat {
    index - LineStart(text, index)
  }

  /** What follows a line's content: nothing, or a line break. */
  predicate LineEnd(s: string) {
    s == "" || s[0] == '\n' || (|s| >= 2 && s[0] == '\r' && s[1] == '\n')
  }

  /** Does not end in a carriage return, so a line break found after it is its own. */
  predicate Solid(s: string) {
    s == "" || s[|s| - 1] != '\r'
  }

  lemma EolAt(pre: string, s: string, post: string, i: nat)
    requires i <= |s| && OneLine(s[i..]) && LineEnd(post) && Solid(pre + s)
    ensures Eol(pre + s + post, |pre| + i) == |pre + s|
  {
    hide NextBreak;
    var text := pre + s + post;
    var found := NextBreak(text, |pre| + i);
    assert forall j | |pre| + i <= j < |pre + s| :: text[j] == s[i..][j - |pre| - i];
    if post == "" {
    } else if post[0] == '\n' {
      assert text[|pre + s|] == '\n';
      assert found == |pre + s|;
      assert found > 0 ==> text[found - 1] == (pre + s)[found - 1];
    } else {
      assert text[|pre + s|] == '\r' && text[|pre + s| + 1] == '\n';
    }
  }

  lemma LineStartAt(pre: string, s: string, post: string, i: nat)
    requires pre == "" || pre[|pre| - 1] == '\n'
    requires i <= |s| && Lacks(s[..i], '\n')
    ensures LineStart(pre + s + post, |pre| + i) == |pre|
  {
    hide LineStart;
    var text := pre + s + post;
    var start := LineStart(text, |pre| + i);
    assert forall j | |pre| <= j < |pre| + i :: text[j] == s[..i][j - |pre|];
    if pre != "" {
      assert text[|pre| - 1] == '\n';
    }
  }

  /** LineStart looks only at what precedes the index. */
  lemma LineStartPrefix(a: string, b: string)
    ensures LineStart(a + b, |a|) == LineStart(a, |a|)
  {
    var s, t := LineStart(a + b, |a|), LineStart(a, |a|);
    assert forall i | 0 <= i < |a| :: (a + b)[i] == a[i];
  }

  /** What Python's `str.strip` removes. */
  predicate PySpace(c: char) {
    var n := c as int;
    || 0x09 <= n <= 0x0D || 0x1C <= n <= 0x20 || n == 0x85 || n == 0xA0 || n == 0x1680
    || 0x2000 <= n <= 0x200A || n == 0x2028 || n == 0x2029 || n == 0x202F || n == 0x205F || n == 0x3000
  }

  /** `s.strip()`. */
  function Stripped(s: string): string {
    if s == "" then ""
    else if PySpace(s[0]) then Stripped(s[1..])
    else if PySpace(s[|s| - 1]) then Stripped(s[..|s| - 1])
    else s
  }

  predicate Occurs(text: string, pattern: string, i: int) {
    0 <= i && i + |pattern| <= |text| && text[i..i + |pattern|] == pattern
  }

  /** `text.find(pattern, from)`. */
  function FindText(text: string, pattern: string, from: nat): (at: Option<nat>)
    ensures at.Some? ==> from <= at.value && Occurs(text, pattern, at.value)
    ensures at.Some? ==> forall i | from <= i < at.value :: !Occurs(text, pattern, i)
    ensures at.None? ==> forall i | from <= i :: !Occurs(text, pattern, i)
    decreases |text| - from
  {
    if from + |pattern| > |text| then None
    else if Occurs(text, pattern, from) then Some(from)
    else FindText(text, pattern, from + 1)
  }
}
