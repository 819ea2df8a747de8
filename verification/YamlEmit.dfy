/**
 Values written as YAML (core/tstd/config_yaml_emit.py), and a reader of the
 JSON-like flow style they are written in.
 */
module YamlEmit {
  import opened Text
  import opened Decimal
  import opened YamlValue

  // ---------------------------------------------------------------- quoting

  const HEX := "0123456789abcdef"

  /** `\uXXXX` for a character of the basic plane. */
  function Hex4(n: nat): (s: string)
    requires n < 0x10000
    ensures |s| == 6
  {
    "\\u" + [HEX[n / 4096], HEX[n / 256 % 16], HEX[n / 16 % 16], HEX[n % 16]]
  }

  /** What `json.dumps(text, ensure_ascii=False)` writes for one character. */
  function JsonChar(c: char): string {
    if c == '\"' then "\\\""
    else if c == '\\' then "\\\\"
    else if c == '\n' then "\\n"
    else if c == '\r' then "\\r"
    else if c == '\t' then "\\t"
    else if c as int == 0x0C then "\\f"
    else if c as int == 0x08 then "\\b"
    else if c as int < 0x20 then Hex4(c as int)
    else [c]
  }

  function JsonBody(text: string): string {
    if text == "" then "" else JsonChar(text[0]) + JsonBody(text[1..])
  }

  /** `_UNSAFE_IN_QUOTES`: YAML refuses the character raw, or folds it as a line break. */
  predicate Unsafe(c: char) {
    var n := c as int;
    || !(n == 0x09 || n == 0x0A || n == 0x0D || 0x20 <= n <= 0x7E || 0xA0 <= n <= 0xD7FF
         || 0xE000 <= n <= 0xFFFD || 0x10000 <= n)
    || n == 0x85 || n == 0x2028 || n == 0x2029 || n == 0xFEFF
  }

  /** `_UNSAFE_IN_QUOTES.sub` over a string. */
  function Escape(s: string): string {
    if s == "" then ""
    else (if Unsafe(s[0]) then Hex4(s[0] as int) else [s[0]]) + Escape(s[1..])
  }

  function Quote(text: string): string {
    Escape("\"" + JsonBody(text) + "\"")
  }

  function HexValue(c: char): Option<nat> {
    if '0' <= c <= '9' then Some(c as int - '0' as int)
    else if 'a' <= c <= 'f' then Some(c as int - 'a' as int + 10)
    else None
  }

  /** The code point four hexadecimal digits spell. */
  function HexCode(s: string): Option<nat>
    requires |s| == 4
  {
    var a, b, c, d := HexValue(s[0]), HexValue(s[1]), HexValue(s[2]), HexValue(s[3]);
    if a.None? || b.None? || c.None? || d.None? then None
    else Some(4096 * a.value + 256 * b.value + 16 * c.value + d.value)
  }

  function Escaped(c: char): Option<char> {
    match c
    case '\"' => Some('\"')
    case '\\' => Some('\\')
    case 'n' => Some('\n')
    case 'r' => Some('\r')
    case 't' => Some('\t')
    case 'f' => Some(0x0C as char)
    case 'b' => Some(0x08 as char)
    case _ => None
  }

  /** A scalar's text and what is left after its closing quote. */
  datatype Quoted = Quoted(text: string, rest: string)

  /**
   The rest of a double-quoted scalar (section 7.3.1 of YAML 1.2): escapes are read,
   a raw line break or an unsafe character is refused.
   */
  function ReadQuoted(s: string): (r: Option<Quoted>)
    ensures r.Some? ==> |r.value.rest| < |s|
    decreases |s|
  {
    if s == "" || Unsafe(s[0]) || s[0] == '\n' || s[0] == '\r' then None
    else if s[0] == '\"' then Some(Quoted("", s[1..]))
    else if s[0] != '\\' then Prepend(s[0], ReadQuoted(s[1..]))
    else if |s| >= 2 && Escaped(s[1]).Some? then Prepend(Escaped(s[1]).value, ReadQuoted(s[2..]))
    else if |s| >= 6 && s[1] == 'u' then
      match HexCode(s[2..6])
      case None => None
      case Some(n) => if 0xD800 <= n < 0xE000 then None else Prepend(n as char, ReadQuoted(s[6..]))
    else None
  }

  function Prepend(c: char, q: Option<Quoted>): Option<Quoted> {
    match q
    case None => None
    case Some(Quoted(text, rest)) => Some(Quoted([c] + text, rest))
  }

  lemma {:induction false} EscapeConcat(a: string, b: string)
    ensures Escape(a + b) == Escape(a) + Escape(b)
  {
    if a == "" {
      assert a + b == b;
    } else {
      assert (a + b)[1..] == a[1..] + b;
      EscapeConcat(a[1..], b);
    }
  }

  /** One character after both escaping passes. */
  function QuotedChar(c: char): string {
    Escape(JsonChar(c))
  }

  lemma {:induction false} EscapePlain(s: string)
    requires forall i | 0 <= i < |s| :: !Unsafe(s[i])
    ensures Escape(s) == s
  {
    if s == "" {
    } else {
      EscapePlain(s[1..]);
      assert s == [s[0]] + s[1..];
    }
  }

  lemma HexParts(n: nat)
    requires n < 0x10000
    ensures n / 4096 < 16
    ensures n == 4096 * (n / 4096) + 256 * (n / 256 % 16) + 16 * (n / 16 % 16) + n % 16
  {
    assert n / 256 == n / 16 / 16 && n / 4096 == n / 256 / 16;
  }

  lemma HexSafe(n: nat)
    requires n < 0x10000
    ensures forall i | 0 <= i < 6 :: !Unsafe(Hex4(n)[i]) && Hex4(n)[i] != '\n' && Hex4(n)[i] != '\r'
    ensures HexCode(Hex4(n)[2..6]) == Some(n)
  {
    hide Unsafe, HexCode;
    HexParts(n);
    HexSpelled(n / 4096, n / 256 % 16, n / 16 % 16, n % 16);
    assert Hex4(n)[2..6] == [HEX[n / 4096], HEX[n / 256 % 16], HEX[n / 16 % 16], HEX[n % 16]];
  }

  lemma HexSpelled(a: nat, b: nat, c: nat, d: nat)
    requires a < 16 && b < 16 && c < 16 && d < 16
    ensures var s := "\\u" + [HEX[a], HEX[b], HEX[c], HEX[d]];
            && (forall i | 0 <= i < 6 :: !Unsafe(s[i]) && s[i] != '\n' && s[i] != '\r')
            && HexCode([HEX[a], HEX[b], HEX[c], HEX[d]]) == Some(4096 * a + 256 * b + 16 * c + d)
  {
    HexDigit(a);
    HexDigit(b);
    HexDigit(c);
    HexDigit(d);
  }

  lemma HexDigit(k: nat)
    requires k < 16
    ensures HexValue(HEX[k]) == Some(k) && !Unsafe(HEX[k]) && HEX[k] != '\n' && HEX[k] != '\r'
  {
    if {
      case k < 10 => assert HEX[k] == ['0', '1', '2', '3', '4', '5', '6', '7', '8', '9'][k];
      case k >= 10 => assert HEX[k] == ['a', 'b', 'c', 'd', 'e', 'f'][k - 10];
    }
  }

  /** The character reaches the file as `\uXXXX`. */
  predicate ByCode(c: char) {
    if c as int < 0x20 then c !in "\n\r\t" && c as int != 0x0C && c as int != 0x08 else Unsafe(c)
  }

  /** Both passes, character by character. */
  lemma QuotedCharCases(c: char)
    ensures QuotedChar(c) == if ByCode(c) then Hex4(c as int) else JsonChar(c)
  {
    hide Hex4;
    var j := JsonChar(c);
    if ByCode(c) && c as int >= 0x20 {
      assert j == [c] && j[1..] == "";
      assert Escape(j) == Hex4(c as int) + "";
    } else {
      if ByCode(c) {
        HexSafe(c as int);
      }
      EscapePlain(j);
    }
  }

  lemma ReadByCode(c: char, rest: string)
    requires c as int < 0x10000
    ensures ReadQuoted(Hex4(c as int) + rest) == Prepend(c, ReadQuoted(rest))
  {
    hide HexCode;
    var q := Hex4(c as int);
    var s := q + rest;
    HexSafe(c as int);
    assert s[0] == '\\' && s[1] == 'u' && s[2..6] == q[2..6] && s[6..] == rest;
    assert Escaped(s[1]).None?;
  }

  lemma ReadEscape(e: char, c: char, rest: string)
    requires Escaped(e) == Some(c)
    ensures ReadQuoted(['\\', e] + rest) == Prepend(c, ReadQuoted(rest))
  {
    hide Prepend;
    var s := ['\\', e] + rest;
    assert s[0] == '\\' && s[1] == e && s[2..] == rest;
  }

  lemma ReadPlainChar(c: char, rest: string)
    requires !ByCode(c) && JsonChar(c) == [c]
    ensures ReadQuoted([c] + rest) == Prepend(c, ReadQuoted(rest))
  {
    hide Prepend;
    assert ([c] + rest)[1..] == rest;
  }

  /** Reading back one written character, whatever follows it. */
  lemma ReadQuotedChar(c: char, rest: string)
    ensures ReadQuoted(QuotedChar(c) + rest) == Prepend(c, ReadQuoted(rest))
  {
    hide QuotedChar, Hex4, ReadQuoted;
    QuotedCharCases(c);
    if ByCode(c) {
      ReadByCode(c, rest);
    } else if JsonChar(c) == [c] {
      ReadPlainChar(c, rest);
    } else {
      ReadEscape(JsonChar(c)[1], c, rest);
      assert JsonChar(c) == ['\\', JsonChar(c)[1]];
    }
  }

  lemma {:induction false} ReadQuotedBody(text: string, rest: string)
    ensures ReadQuoted(Escape(JsonBody(text)) + "\"" + rest) == Some(Quoted(text, rest))
    decreases |text|
  {
    hide Escape, JsonBody, ReadQuoted, QuotedChar;
    if text == "" {
      EmptyBody(rest);
    } else {
      var after := Escape(JsonBody(text[1..])) + "\"" + rest;
      BodyFirst(text, rest);
      ReadQuotedChar(text[0], after);
      ReadQuotedBody(text[1..], rest);
      assert text == [text[0]] + text[1..];
    }
  }

  lemma EmptyBody(rest: string)
    ensures ReadQuoted(Escape(JsonBody("")) + "\"" + rest) == Some(Quoted("", rest))
  {
    assert Escape(JsonBody("")) + "\"" + rest == "\"" + rest;
    assert ("\"" + rest)[1..] == rest;
  }

  lemma BodyFirst(text: string, rest: string)
    requires text != ""
    ensures Escape(JsonBody(text)) + "\"" + rest
            == QuotedChar(text[0]) + (Escape(JsonBody(text[1..])) + "\"" + rest)
  {
    hide Escape, JsonChar;
    EscapeConcat(JsonChar(text[0]), JsonBody(text[1..]));
  }

  /** `Quote` starts with a quote, and what follows reads back as the text. */
  lemma QuoteReads(text: string, rest: string)
    ensures Quote(text) + rest == "\"" + (Quote(text) + rest)[1..]
    ensures ReadQuoted((Quote(text) + rest)[1..]) == Some(Quoted(text, rest))
  {
    hide Quote, ReadQuoted, Escape, JsonBody;
    QuoteShape(text);
    ReadQuotedBody(text, rest);
    var body := Escape(JsonBody(text));
    assert ("\"" + body + "\"") + rest == "\"" + (body + "\"" + rest);
    assert (("\"" + body + "\"") + rest)[1..] == body + "\"" + rest;
  }

  lemma EscapeOne(s: string)
    requires |s| == 1 && !Unsafe(s[0])
    ensures Escape(s) == s
  {
    assert s[1..] == "";
    assert Escape(s) == [s[0]] + "";
  }

  lemma QuoteShape(text: string)
    ensures Quote(text) == "\"" + Escape(JsonBody(text)) + "\""
  {
    hide Escape, JsonBody;
    assert "\"" + JsonBody(text) + "\"" == "\"" + (JsonBody(text) + "\"");
    EscapeConcat("\"", JsonBody(text) + "\"");
    EscapeConcat(JsonBody(text), "\"");
    EscapeOne("\"");
  }

  // ---------------------------------------------------------------- scalars

  function ExponentText(e: Exponent): string {
    match e
    case NoExponent => ""
    case Exponent(sign, digits) => (if sign.Plus? then "e+" else "e-") + digits
  }

  /** Python's `repr` of a finite float: a whole mantissa before an exponent has no point. */
  function Repr(f: Float): string {
    (if f.negative then "-" else "") + f.whole
    + (if f.exponent.Exponent? && f.fraction == "0" then "" else "." + f.fraction)
    + ExponentText(f.exponent)
  }

  /** Everything before the first `c`; all of `s` when there is none. */
  function Before(s: string, c: char): (b: string)
    ensures |b| <= |s| && b == s[..|b|] && Lacks(b, c)
    ensures |b| < |s| ==> s[|b|] == c
  {
    if s == "" || s[0] == c then "" else [s[0]] + Before(s[1..], c)
  }

  lemma {:induction false} BeforeAt(a: string, c: char, b: string)
    requires Lacks(a, c)
    ensures Before(a + [c] + b, c) == a
    ensures Before(a, c) == a
  {
    if a == "" {
      assert a + [c] + b == [c] + b;
    } else {
      assert Lacks(a[1..], c) by {
        assert forall i | 0 <= i < |a[1..]| :: a[1..][i] == a[i + 1];
      }
      BeforeAt(a[1..], c, b);
      assert a + [c] + b == [a[0]] + (a[1..] + [c] + b);
    }
  }

  /** The tail of `scalar_text` for a float: YAML 1.1 wants a point and a signed exponent. */
  function FloatText(repr: string): string {
    var mantissa := Before(repr, 'e');
    if mantissa == repr then repr
    else
      var exponent := repr[|mantissa| + 1..];
      (if Lacks(mantissa, '.') then mantissa + ".0" else mantissa) + "e"
      + (if exponent != "" && exponent[0] in "+-" then exponent else "+" + exponent)
  }

  function ScalarText(v: Value): string
    requires !v.List? && !v.Dict?
  {
    match v
    case Null => "null"
    case Bool(flag) => if flag then "true" else "false"
    case Int(n) => IntText(n)
    case Real(f) => FloatText(Repr(f))
    case Str(text) => Quote(text)
  }

  function ReadExponent(s: string): Option<Exponent> {
    if s == "" then Some(NoExponent)
    else if |s| >= 3 && s[0] == 'e' && (s[1] == '+' || s[1] == '-') && Digits(s[2..]) then
      Some(Exponent(if s[1] == '+' then Plus else Minus, s[2..]))
    else None
  }

  /** Digits, a point, digits, and a signed exponent or none. */
  function ReadUnsigned(negative: bool, body: string): Option<Value> {
    var whole := LeadingDigits(body);
    if whole == "" || |whole| == |body| || body[|whole|] != '.' then None
    else
      var fraction := LeadingDigits(body[|whole| + 1..]);
      if fraction == "" then None
      else
        match ReadExponent(body[|whole| + 1 + |fraction|..])
        case None => None
        case Some(e) => Some(Real(FloatDigits(negative, whole, fraction, e)))
  }

  /** The float spelling YAML 1.1 resolves. */
  function ReadFloat(s: string): Option<Value> {
    if s != "" && s[0] == '-' then ReadUnsigned(true, s[1..]) else ReadUnsigned(false, s)
  }

  /** The integer spelling: an optional minus and digits without a leading zero. */
  function ReadInt(s: string): Option<Value> {
    var negative := s != "" && s[0] == '-';
    var body := if negative then s[1..] else s;
    if !Digits(body) || (body[0] == '0' && body != "0") then None
    else
      var n: int := NatValue(body);
      Some(Int(if negative then -n else n))
  }

  predicate IsNull(s: string) {
    s == "" || s == "~" || s == "null" || s == "Null" || s == "NULL"
  }

  predicate IsTrue(s: string) {
    || s == "yes" || s == "Yes" || s == "YES" || s == "true" || s == "True" || s == "TRUE"
    || s == "on" || s == "On" || s == "ON"
  }

  predicate IsFalse(s: string) {
    || s == "no" || s == "No" || s == "NO" || s == "false" || s == "False" || s == "FALSE"
    || s == "off" || s == "Off" || s == "OFF"
  }

  predicate WordStart(c: char) {
    'A' <= c <= 'Z' || 'a' <= c <= 'z' || c == '_'
  }

  predicate WordChar(c: char) {
    WordStart(c) || IsDigit(c) || c == '-'
  }

  /** `_PLAIN_KEY`, and so a word YAML takes without quotes. */
  predicate Word(s: string) {
    s != "" && WordStart(s[0]) && forall i | 0 <= i < |s| :: WordChar(s[i])
  }

  /** A plain scalar as YAML 1.1 resolves it; None for a spelling outside this model. */
  function ReadPlain(s: string): Option<Value> {
    if IsNull(s) then Some(Null)
    else if IsTrue(s) then Some(Bool(true))
    else if IsFalse(s) then Some(Bool(false))
    else if ReadInt(s).Some? then ReadInt(s)
    else if ReadFloat(s).Some? then ReadFloat(s)
    else if Word(s) then Some(Str(s))
    else None
  }

  /** A one-line scalar, quoted or plain. */
  function ReadScalar(s: string): Option<Value> {
    if s != "" && s[0] == '\"' then
      match ReadQuoted(s[1..])
      case Some(Quoted(text, "")) => Some(Str(text))
      case _ => None
    else ReadPlain(s)
  }

  /** `_key_text`: plain when YAML reads the key back as that same string. */
  function KeyText(key: string): string {
    if Word(key) && ReadPlain(key) == Some(Str(key)) then key else Quote(key)
  }

  lemma NumberIsNoWord(s: string)
    requires s != "" && (IsDigit(s[0]) || (s[0] == '-' && |s| >= 2))
    ensures !IsNull(s) && !IsTrue(s) && !IsFalse(s)
  {
  }

  lemma IntReads(n: int)
    ensures ReadPlain(IntText(n)) == Some(Int(n))
  {
    hide IsFalse, IsTrue;
    var s := IntText(n);
    NumberIsNoWord(s);
    var m := if n < 0 then -n else n;
    NatRoundTrip(m);
    assert (if n < 0 then s[1..] else s) == NatText(m);
  }

  /** Sign and whole part. */
  function Head(f: Float): (h: string)
    ensures h != "" && forall i | 0 <= i < |h| :: IsDigit(h[i]) || (i == 0 && |h| >= 2 && h[i] == '-')
  {
    (if f.negative then "-" else "") + f.whole
  }

  lemma FloatTextPlain(m: string)
    requires Lacks(m, 'e')
    ensures FloatText(m) == m
  {
    BeforeAt(m, 'e', "");
  }

  lemma FloatTextExponent(m: string, e: string)
    requires Lacks(m, 'e') && e != "" && e[0] in "+-"
    ensures FloatText(m + ("e" + e)) == (if Lacks(m, '.') then m + ".0" else m) + "e" + e
  {
    BeforeAt(m, 'e', e);
    assert m + ("e" + e) == m + ['e'] + e;
    assert (m + ("e" + e))[|m| + 1..] == e;
  }

  lemma FloatTextOf(f: Float)
    ensures FloatText(Repr(f)) == Head(f) + ("." + (f.fraction + ExponentText(f.exponent)))
  {
    hide FloatText;
    var h := Head(f);
    if f.exponent.NoExponent? {
      assert Repr(f) == h + ("." + f.fraction);
      FloatTextPlain(h + ("." + f.fraction));
      assert f.fraction + "" == f.fraction;
    } else {
      var e := [if f.exponent.sign.Plus? then '+' else '-'] + f.exponent.digits;
      assert ExponentText(f.exponent) == "e" + e;
      if f.fraction == "0" {
        assert Repr(f) == h + ("e" + e);
        FloatTextExponent(h, e);
        assert h + ".0" + "e" + e == h + ("." + ("0" + ("e" + e)));
      } else {
        var m := h + ("." + f.fraction);
        assert m[|h|] == '.';
        assert Repr(f) == m + ("e" + e);
        FloatTextExponent(m, e);
        assert m + "e" + e == h + ("." + (f.fraction + ("e" + e)));
      }
    }
  }

  lemma ReadExponentOf(e: Exponent)
    requires e.Exponent? ==> Digits(e.digits)
    ensures ReadExponent(ExponentText(e)) == Some(e)
    ensures ExponentText(e) == "" || !IsDigit(ExponentText(e)[0])
  {
    if e.Exponent? {
      assert ExponentText(e)[2..] == e.digits;
    }
  }

  lemma ReadUnsignedParts(negative: bool, whole: string, fraction: string, e: Exponent)
    requires Digits(whole) && Digits(fraction) && (e.Exponent? ==> Digits(e.digits))
    ensures ReadUnsigned(negative, whole + ("." + (fraction + ExponentText(e))))
            == Some(Real(FloatDigits(negative, whole, fraction, e)))
  {
    hide ExponentText, ReadExponent, LeadingDigits;
    var x := ExponentText(e);
    ReadExponentOf(e);
    LeadingDigitsAt(fraction, x);
    var point := "." + (fraction + x);
    LeadingDigitsAt(whole, point);
    var body := whole + point;
    assert body[|whole| + 1..] == fraction + x;
    assert body[|whole| + 1 + |fraction|..] == x;
  }

  lemma ReadFloatParts(f: Float)
    ensures ReadFloat(Head(f) + ("." + (f.fraction + ExponentText(f.exponent)))) == Some(Real(f))
  {
    hide ReadUnsigned, ExponentText, Digits;
    var point := "." + (f.fraction + ExponentText(f.exponent));
    var s := Head(f) + point;
    ReadUnsignedParts(f.negative, f.whole, f.fraction, f.exponent);
    if f.negative {
      assert s[0] == '-' && s[1..] == f.whole + point;
    } else {
      assert IsDigit(f.whole[0]) by { DigitsStart(f.whole); }
      assert s == f.whole + point && s[0] == f.whole[0];
    }
  }

  lemma DigitsStart(s: string)
    requires Digits(s)
    ensures s != "" && IsDigit(s[0])
  {
  }

  /** A number is written with characters no flow indicator shares. */
  predicate Token(s: string) {
    s != "" && s[0] !in "\"[{" && forall i | 0 <= i < |s| :: s[i] !in ",]} :#\n\r"
  }

  lemma NotInt(s: string, at: nat)
    requires at < |s| && s[at] == '.' && (at == 0 ==> |s| > 1)
    ensures ReadInt(s).None?
  {
    var body := if s[0] == '-' then s[1..] else s;
    if s[0] == '-' && at > 0 { assert body[at - 1] == '.'; }
  }

  lemma FloatToken(f: Float)
    ensures Token(FloatText(Repr(f)))
  {
    hide FloatText, Repr, Head;
    FloatTextOf(f);
    assert forall i | 0 <= i < |ExponentText(f.exponent)| :: ExponentText(f.exponent)[i] !in ",]} :#\n\r" by {
      var x := ExponentText(f.exponent);
      forall i | 0 <= i < |x| ensures x[i] !in ",]} :#\n\r" {
        if i >= 2 { assert x[i] == f.exponent.digits[i - 2]; }
      }
    }
    var h, d, x := Head(f), f.fraction, ExponentText(f.exponent);
    var s := h + ("." + (d + x));
    forall i | 0 <= i < |s| ensures s[i] !in ",]} :#\n\r" {
      assert s[i] == if i < |h| then h[i] else if i == |h| then '.'
                     else if i < |h| + 1 + |d| then d[i - |h| - 1] else x[i - |h| - 1 - |d|];
    }
    assert s[0] == h[0];
  }

  lemma FloatReads(f: Float)
    ensures ReadPlain(FloatText(Repr(f))) == Some(Real(f))
    ensures Token(FloatText(Repr(f)))
  {
    hide FloatText, Repr, ExponentText, ReadFloat, ReadInt, Digits, IsFalse, IsTrue;
    var s := FloatText(Repr(f));
    FloatTextOf(f);
    FloatToken(f);
    assert ReadFloat(s) == Some(Real(f)) by { ReadFloatParts(f); }
    assert s[0] == Head(f)[0];
    assert s[|Head(f)|] == '.';
    NumberIsNoWord(s);
    NotInt(s, |Head(f)|);
  }

  lemma ScalarTextReads(v: Value)
    requires !v.List? && !v.Dict?
    ensures ReadScalar(ScalarText(v)) == Some(v)
    ensures !v.Str? ==> Token(ScalarText(v)) && ReadPlain(ScalarText(v)) == Some(v)
  {
    hide ReadScalar, ReadPlain, Quote, FloatText, Repr;
    match v {
      case Null => WordsRead();
      case Bool(flag) => WordsRead();
      case Int(n) =>
        IntReads(n);
        assert Token(IntText(n));
      case Real(f) => FloatReads(f);
      case Str(text) => StrReads(text);
    }
    if !v.Str? {
      TokenScalar(ScalarText(v));
    }
  }

  lemma NullReads()
    ensures Token("null") && ReadPlain("null") == Some(Null)
  {
    hide ReadInt, ReadFloat, Word;
  }

  lemma FalseReads()
    ensures Token("false") && ReadPlain("false") == Some(Bool(false))
  {
    hide ReadInt, ReadFloat, Word;
  }

  lemma WordsRead()
    ensures Token("null") && ReadPlain("null") == Some(Null)
    ensures Token("true") && ReadPlain("true") == Some(Bool(true))
    ensures Token("false") && ReadPlain("false") == Some(Bool(false))
  {
    NullReads();
    assert Token("true") && ReadPlain("true") == Some(Bool(true)) by { hide ReadInt, ReadFloat, Word; }
    FalseReads();
  }

  lemma StrReads(text: string)
    ensures ReadScalar(Quote(text)) == Some(Str(text))
  {
    hide Quote, ReadQuoted;
    QuoteReads(text, "");
    assert Quote(text) + "" == Quote(text);
  }

  lemma TokenScalar(s: string)
    requires Token(s)
    ensures ReadScalar(s) == ReadPlain(s)
  {
    hide ReadPlain, ReadQuoted;
  }

  lemma KeyTextReads(key: string)
    ensures ReadScalar(KeyText(key)) == Some(Str(key))
  {
    hide ReadPlain;
    if Word(key) && ReadPlain(key) == Some(Str(key)) {
      assert key[0] != '\"';
    } else {
      ScalarTextReads(Str(key));
    }
  }

  // ------------------------------------------------------------- flow style

  function FlowText(v: Value): string
    decreases v
  {
    match v
    case Dict(pairs) => "{" + FlowPairs(pairs) + "}"
    case List(items) => "[" + FlowItems(items) + "]"
    case _ => ScalarText(v)
  }

  function FlowItems(items: seq<Value>): string
    decreases items
  {
    if items == [] then ""
    else FlowText(items[0]) + (if |items| == 1 then "" else ", " + FlowItems(items[1..]))
  }

  function FlowPairs(pairs: seq<Pair>): string
    decreases pairs
  {
    if pairs == [] then ""
    else
      Quote(pairs[0].key) + ": " + FlowText(pairs[0].val)
      + (if |pairs| == 1 then "" else ", " + FlowPairs(pairs[1..]))
  }

  datatype Read = Read(val: Value, rest: string)
  datatype ReadMany = ReadMany(items: seq<Value>, rest: string)
  datatype ReadKeyed = ReadKeyed(pairs: seq<Pair>, rest: string)

  function SkipBlanks(s: string): (r: string)
    ensures |r| <= |s|
    ensures s != "" && s[0] !in " \t\r\n" ==> r == s
  {
    if s != "" && s[0] in " \t\r\n" then SkipBlanks(s[1..]) else s
  }

  /** The characters a plain scalar in a flow collection takes. */
  function TakeToken(s: string): (t: string)
    ensures |t| <= |s|
  {
    if s == "" || s[0] in ",]} :#\n\r" then "" else [s[0]] + TakeToken(s[1..])
  }

  /** Reads one flow node from the start of `s` (section 7.4 of YAML 1.2, quoted keys). */
  function ReadFlow(s: string): (r: Option<Read>)
    ensures r.Some? ==> |r.value.rest| < |s|
    decreases |s|, 0
  {
    if s == "" then None
    else if s[0] == '\"' then
      match ReadQuoted(s[1..])
      case None => None
      case Some(Quoted(text, rest)) => Some(Read(Str(text), rest))
    else if s[0] == '[' then
      var inner := SkipBlanks(s[1..]);
      if inner != "" && inner[0] == ']' then Some(Read(List([]), inner[1..]))
      else
        match ReadItems(inner)
        case None => None
        case Some(ReadMany(items, rest)) => Some(Read(List(items), rest))
    else if s[0] == '{' then
      var inner := SkipBlanks(s[1..]);
      if inner != "" && inner[0] == '}' then Some(Read(Dict([]), inner[1..]))
      else
        match ReadPairs(inner)
        case None => None
        case Some(ReadKeyed(pairs, rest)) => Some(Read(Dict(pairs), rest))
    else
      var token := TakeToken(s);
      if token == "" then None
      else
        match ReadPlain(token)
        case None => None
        case Some(v) => Some(Read(v, s[|token|..]))
  }

  function ReadItems(s: string): (r: Option<ReadMany>)
    ensures r.Some? ==> |r.value.rest| < |s|
    decreases |s|, 1
  {
    match ReadFlow(s)
    case None => None
    case Some(Read(v, rest)) =>
      var after := SkipBlanks(rest);
      if after != "" && after[0] == ']' then Some(ReadMany([v], after[1..]))
      else if after != "" && after[0] == ',' then
        match ReadItems(SkipBlanks(after[1..]))
        case None => None
        case Some(ReadMany(items, last)) => Some(ReadMany([v] + items, last))
      else None
  }

  function ReadPairs(s: string): (r: Option<ReadKeyed>)
    ensures r.Some? ==> |r.value.rest| < |s|
    decreases |s|, 1
  {
    if s == "" || s[0] != '\"' then None
    else
      match ReadQuoted(s[1..])
      case None => None
      case Some(Quoted(key, colon)) =>
        if colon == "" || colon[0] != ':' then None
        else
          match ReadFlow(SkipBlanks(colon[1..]))
          case None => None
          case Some(Read(v, rest)) =>
            var after := SkipBlanks(rest);
            if after != "" && after[0] == '}' then Some(ReadKeyed([Pair(key, v)], after[1..]))
            else if after != "" && after[0] == ',' then
              match ReadPairs(SkipBlanks(after[1..]))
              case None => None
              case Some(ReadKeyed(pairs, last)) => Some(ReadKeyed([Pair(key, v)] + pairs, last))
            else None
  }

  /** Nothing that could continue a plain scalar. */
  predicate Closes(rest: string) {
    rest == "" || rest[0] in ",]}"
  }

  lemma {:induction false} TakeTokenAt(t: string, rest: string)
    requires forall i | 0 <= i < |t| :: t[i] !in ",]} :#\n\r"
    requires Closes(rest)
    ensures TakeToken(t + rest) == t
  {
    if t == "" {
      assert t + rest == rest;
    } else {
      TakeTokenAt(t[1..], rest);
      assert t + rest == [t[0]] + (t[1..] + rest);
    }
  }

  /** A written value starts with none of the characters that close or blank. */
  lemma FlowTextStart(v: Value)
    ensures FlowText(v) != "" && FlowText(v)[0] !in " \t\r\n]}"
  {
    hide FloatText, JsonBody, Escape, ExponentText;
    if v.Str? {
      QuoteShape(v.text);
    } else if v.Int? || v.Real? {
      ScalarTextReads(v);
      assert Token(ScalarText(v));
      if v.Real? {
        FloatTextOf(v.float);
      }
    }
  }

  lemma ReadScalarFlow(v: Value, rest: string)
    requires !v.List? && !v.Dict? && Closes(rest)
    ensures ReadFlow(ScalarText(v) + rest) == Some(Read(v, rest))
  {
    hide Token, IntText, FloatText, Repr, ReadScalar;
    if v.Str? {
      assert ReadFlow(Quote(v.text) + rest) == Some(Read(Str(v.text), rest)) by {
        hide ReadQuoted, Quote, ReadPairs, ReadItems, ReadPlain, TakeToken;
        QuoteReads(v.text, rest);
      }
    } else {
      ScalarTextReads(v);
      TokenFlow(ScalarText(v), v, rest);
    }
  }

  lemma TokenFlow(t: string, v: Value, rest: string)
    requires Token(t) && ReadPlain(t) == Some(v) && Closes(rest)
    ensures ReadFlow(t + rest) == Some(Read(v, rest))
  {
    hide ReadQuoted, ReadPairs, ReadItems, ReadPlain, TakeToken;
    TakeTokenAt(t, rest);
    assert (t + rest)[0] == t[0];
    assert (t + rest)[|t|..] == rest;
  }

  /** One step of reading a list, once its first item and what follows are known. */
  lemma ItemsLast(s: string, v: Value, rest: string)
    requires ReadFlow(s) == Some(Read(v, "]" + rest))
    ensures ReadItems(s) == Some(ReadMany([v], rest))
  {
    hide ReadFlow;
    assert ("]" + rest)[1..] == rest;
  }

  lemma ItemsMore(s: string, v: Value, after: string, items: seq<Value>, last: string)
    requires ReadFlow(s) == Some(Read(v, ", " + after))
    requires SkipBlanks(after) == after && ReadItems(after) == Some(ReadMany(items, last))
    ensures ReadItems(s) == Some(ReadMany([v] + items, last))
  {
    hide ReadFlow, SkipBlanks;
    AfterComma(after);
  }

  lemma AfterComma(after: string)
    requires SkipBlanks(after) == after
    ensures SkipBlanks((", " + after)[1..]) == after
  {
    assert (", " + after)[1..] == " " + after && (" " + after)[1..] == after;
  }

  lemma PairsMore(s: string, key: string, colon: string, v: Value, after: string, pairs: seq<Pair>, last: string)
    requires s != "" && s[0] == '\"' && ReadQuoted(s[1..]) == Some(Quoted(key, ": " + colon))
    requires SkipBlanks(colon) == colon && ReadFlow(colon) == Some(Read(v, ", " + after))
    requires SkipBlanks(after) == after && ReadPairs(after) == Some(ReadKeyed(pairs, last))
    ensures ReadPairs(s) == Some(ReadKeyed([Pair(key, v)] + pairs, last))
  {
    hide ReadFlow, ReadQuoted, SkipBlanks;
    AfterColon(colon);
    AfterComma(after);
  }

  lemma AfterColon(colon: string)
    requires SkipBlanks(colon) == colon
    ensures SkipBlanks((": " + colon)[1..]) == colon
  {
    assert (": " + colon)[1..] == " " + colon && (" " + colon)[1..] == colon;
  }

  lemma DictRead(inner: string, pairs: seq<Pair>, rest: string)
    requires inner != "" && inner[0] == '\"' && ReadPairs(inner) == Some(ReadKeyed(pairs, rest))
    ensures ReadFlow("{" + inner) == Some(Read(Dict(pairs), rest))
  {
    hide ReadPairs;
    assert ("{" + inner)[1..] == inner;
  }

  lemma EmptyRead(rest: string)
    ensures ReadFlow("{}" + rest) == Some(Read(Dict([]), rest))
    ensures ReadFlow("[]" + rest) == Some(Read(List([]), rest))
  {
    assert ("{}" + rest)[1..] == "}" + rest && ("[]" + rest)[1..] == "]" + rest;
    assert ("}" + rest)[1..] == rest && ("]" + rest)[1..] == rest;
  }

  /** Every nested value written in flow style reads back as itself. */
  lemma {:induction false} FlowRoundTrip(v: Value, rest: string)
    requires Closes(rest)
    ensures ReadFlow(FlowText(v) + rest) == Some(Read(v, rest))
    decreases v
  {
    hide ReadPairs, Quote, ScalarText;
    if v == Dict([]) || v == List([]) {
      assert FlowText(v) == if v.Dict? then "{}" else "[]";
      EmptyRead(rest);
    } else if v.Dict? {
      var inner := FlowPairs(v.pairs) + ("}" + rest);
      assert FlowText(v) + rest == "{" + inner;
      QuoteShape(v.pairs[0].key);
      assert inner[0] == Quote(v.pairs[0].key)[0];
      PairsRoundTrip(v.pairs, rest);
      DictRead(inner, v.pairs, rest);
    } else if v.List? {
      var inner := FlowItems(v.items) + ("]" + rest);
      assert FlowText(v) + rest == "[" + inner;
      FlowTextStart(v.items[0]);
      assert inner[0] == FlowText(v.items[0])[0];
      ItemsRoundTrip(v.items, rest);
      assert ReadFlow("[" + inner) == Some(Read(List(v.items), rest)) by {
        hide ReadItems;
        assert ("[" + inner)[1..] == inner;
      }
    } else {
      ReadScalarFlow(v, rest);
    }
  }

  lemma {:induction false} ItemsRoundTrip(items: seq<Value>, rest: string)
    requires items != []
    ensures ReadItems(FlowItems(items) + ("]" + rest)) == Some(ReadMany(items, rest))
    decreases items
  {
    hide ReadFlow, ReadItems, SkipBlanks, FlowText;
    var v := items[0];
    var s := FlowItems(items) + ("]" + rest);
    if |items| == 1 {
      assert s == FlowText(v) + ("]" + rest);
      FlowRoundTrip(v, "]" + rest);
      ItemsLast(s, v, rest);
      assert items == [v];
    } else {
      var after := FlowItems(items[1..]) + ("]" + rest);
      assert s == FlowText(v) + (", " + after);
      FlowRoundTrip(v, ", " + after);
      FlowTextStart(items[1]);
      assert after[0] == FlowText(items[1])[0];
      ItemsRoundTrip(items[1..], rest);
      ItemsMore(s, v, after, items[1..], rest);
      assert items == [v] + items[1..];
    }
  }

  lemma PairsText(pairs: seq<Pair>, rest: string)
    requires pairs != []
    ensures var tail := if |pairs| == 1 then "}" + rest else ", " + (FlowPairs(pairs[1..]) + ("}" + rest));
            FlowPairs(pairs) + ("}" + rest) == Quote(pairs[0].key) + (": " + (FlowText(pairs[0].val) + tail))
    ensures (FlowPairs(pairs) + ("}" + rest))[0] == '\"'
  {
    hide FlowText, Quote;
    QuoteShape(pairs[0].key);
    PairsGlue(Quote(pairs[0].key), FlowText(pairs[0].val), FlowPairs(pairs[1..]), "}" + rest);
  }

  lemma PairsGlue(q: string, f: string, more: string, end: string)
    ensures (q + ": " + f + "") + end == q + (": " + (f + end))
    ensures (q + ": " + f + (", " + more)) + end == q + (": " + (f + (", " + (more + end))))
  {
  }

  lemma {:induction false} PairsRoundTrip(pairs: seq<Pair>, rest: string)
    requires pairs != []
    ensures ReadPairs(FlowPairs(pairs) + ("}" + rest)) == Some(ReadKeyed(pairs, rest))
    decreases pairs
  {
    hide ReadFlow, FlowText, FlowPairs, ReadQuoted, Quote, SkipBlanks;
    var Pair(key, v) := pairs[0];
    var s := FlowPairs(pairs) + ("}" + rest);
    var after := FlowPairs(pairs[1..]) + ("}" + rest);
    var tail := if |pairs| == 1 then "}" + rest else ", " + after;
    var colon := FlowText(v) + tail;
    PairsText(pairs, rest);
    QuoteReads(key, ": " + colon);
    FlowTextStart(v);
    FlowRoundTrip(v, tail);
    assert colon[0] == FlowText(v)[0];
    if |pairs| == 1 {
      assert ReadPairs(s) == Some(ReadKeyed([Pair(key, v)], rest)) by {
        hide ReadFlow, ReadQuoted, SkipBlanks;
        AfterColon(colon);
        assert ("}" + rest)[1..] == rest;
      }
      assert pairs == [pairs[0]];
    } else {
      PairsText(pairs[1..], rest);
      PairsRoundTrip(pairs[1..], rest);
      PairsMore(s, key, colon, v, after, pairs[1..], rest);
      assert pairs == [pairs[0]] + pairs[1..];
    }
  }
}
