/** JSON string literals as `JSON.stringify` writes them (the
    QuoteJSONString operation of ECMA-262, section 25.5.2.3) and as the
    JSON grammar of ECMA-404 reads them back. Both work on UTF-16 code
    units: a surrogate pair is copied as it is, a surrogate without its
    partner is written as a `\u` escape. */
module JsonText {
  import opened Wrappers
  import opened JsText

  const BACKSLASH: CodeUnit := 0x5C

  predicate IsHighSurrogate(u: CodeUnit) {
    0xD800 <= u <= 0xDBFF
  }

  predicate IsLowSurrogate(u: CodeUnit) {
    0xDC00 <= u <= 0xDFFF
  }

  /** The unit at `i` is half of a surrogate pair whose other half is
      missing. */
  predicate LoneSurrogate(s: JsString, i: nat)
    requires i < |s|
  {
    (IsHighSurrogate(s[i]) && !(i + 1 < |s| && IsLowSurrogate(s[i + 1])))
    || (IsLowSurrogate(s[i]) && !(0 < i && IsHighSurrogate(s[i - 1])))
  }

  // ---------------------------------------------------------------------
  // Hexadecimal digits
  // ---------------------------------------------------------------------

  /** The value of a hexadecimal digit of either case. */
  function HexValue(u: CodeUnit): (r: Option<nat>)
    ensures r.Some? ==> r.value < 16
  {
    if 0x30 <= u <= 0x39 then Some((u - 0x30) as nat)
    else if 0x61 <= u <= 0x66 then Some((u - 0x61) as nat + 10)
    else if 0x41 <= u <= 0x46 then Some((u - 0x41) as nat + 10)
    else None
  }

  /** The lower-case hexadecimal digit `JSON.stringify` writes. */
  function HexDigit(n: nat): (u: CodeUnit)
    requires n < 16
    ensures HexValue(u) == Some(n)
  {
    if n < 10 then (0x30 + n) as CodeUnit else (0x61 + n - 10) as CodeUnit
  }

  /** The number four hexadecimal digits denote. */
  function Hex4Value(h: JsString): (r: Option<nat>)
    requires |h| == 4
    ensures r.Some? ==> r.value < 0x1_0000
  {
    match (HexValue(h[0]), HexValue(h[1]), HexValue(h[2]), HexValue(h[3]))
    case (Some(a), Some(b), Some(c), Some(d)) => Some(4096 * a + 256 * b + 16 * c + d)
    case _ => None
  }

  /** `\u` and four lower-case hexadecimal digits. */
  function UnicodeEscape(u: CodeUnit): (r: JsString)
    ensures |r| == 6 && r[0] == BACKSLASH && r[1] == 0x75
    ensures Hex4Value(r[2..]) == Some(u as nat)
  {
    var n := u as nat;
    HexSplit(n);
    [BACKSLASH, 0x75, HexDigit(n / 4096), HexDigit(n % 4096 / 256), HexDigit(n % 256 / 16), HexDigit(n % 16)]
  }

  /** A code unit is its four hexadecimal digits put back together. */
  lemma HexSplit(n: nat)
    requires n < 0x1_0000
    ensures n / 4096 < 16 && n % 4096 / 256 < 16 && n % 256 / 16 < 16
    ensures n == 4096 * (n / 4096) + 256 * (n % 4096 / 256) + 16 * (n % 256 / 16) + n % 16
  {
    var r := n % 4096;
    assert n == 4096 * (n / 4096) + r;
    assert r == 256 * (r / 256) + r % 256;
    assert r % 256 == n % 256;
    assert n % 256 == 16 * (n % 256 / 16) + n % 256 % 16;
    assert n % 256 % 16 == n % 16;
  }

  // ---------------------------------------------------------------------
  // Writing
  // ---------------------------------------------------------------------

  /** How `JSON.stringify` writes the unit at `i`: the two-character
      escapes for quote, backslash and five control characters, `\u` for
      the other control characters and for lone surrogates, the unit
      itself otherwise. */
  function EscapeAt(s: JsString, i: nat): (r: JsString)
    requires i < |s|
    ensures r != []
  {
    var u := s[i];
    if u == 0x08 then [BACKSLASH, 0x62]
    else if u == 0x09 then [BACKSLASH, 0x74]
    else if u == 0x0A then [BACKSLASH, 0x6E]
    else if u == 0x0C then [BACKSLASH, 0x66]
    else if u == 0x0D then [BACKSLASH, 0x72]
    else if u == QUOTE then [BACKSLASH, QUOTE]
    else if u == BACKSLASH then [BACKSLASH, BACKSLASH]
    else if u < 0x20 || LoneSurrogate(s, i) then UnicodeEscape(u)
    else [u]
  }

  /** The escaped units of `s` from `i` on. */
  function EscapeFrom(s: JsString, i: nat): JsString
    requires i <= |s|
    decreases |s| - i
  {
    if i == |s| then [] else EscapeAt(s, i) + EscapeFrom(s, i + 1)
  }

  /** `JSON.stringify` of a string: the escaped units between quotes. */
  function Quote(s: JsString): (r: JsString)
    ensures |r| >= 2 && r[0] == QUOTE && r[|r| - 1] == QUOTE
  {
    [QUOTE] + EscapeFrom(s, 0) + [QUOTE]
  }

  // ---------------------------------------------------------------------
  // Reading
  // ---------------------------------------------------------------------

  /** The unit an escape stands for, read after its backslash, and how
      many units after the backslash it takes. */
  function Unescaped(t: JsString): (r: Option<(CodeUnit, nat)>)
    ensures r.Some? ==> 1 <= r.value.1 <= |t|
  {
    if t == [] then None
    else if t[0] == QUOTE || t[0] == BACKSLASH || t[0] == SLASH then Some((t[0], 1))
    else if t[0] == 0x62 then Some((0x08, 1))
    else if t[0] == 0x66 then Some((0x0C, 1))
    else if t[0] == 0x6E then Some((0x0A, 1))
    else if t[0] == 0x72 then Some((0x0D, 1))
    else if t[0] == 0x74 then Some((0x09, 1))
    else if t[0] == 0x75 && |t| >= 5 && Hex4Value(t[1..5]).Some? then
      Some((Hex4Value(t[1..5]).value as CodeUnit, 5))
    else None
  }

  /** The body of a JSON string literal, read after its opening quote:
      the units it denotes and the text after its closing quote; `None`
      when the text is not such a body (a raw control character, a bad
      escape, no closing quote). */
  function ReadString(t: JsString): (r: Option<(JsString, JsString)>)
    ensures r.Some? ==> |r.value.1| < |t|
    decreases |t|
  {
    if t == [] then None
    else if t[0] == QUOTE then Some(([], t[1..]))
    else if t[0] < 0x20 then None
    else if t[0] != BACKSLASH then
      match ReadString(t[1..])
      case None => None
      case Some((v, rest)) => Some(([t[0]] + v, rest))
    else
      match Unescaped(t[1..])
      case None => None
      case Some((u, n)) =>
        match ReadString(t[1 + n..])
        case None => None
        case Some((v, rest)) => Some(([u] + v, rest))
  }

  /** A read result with one more unit in front of the string read. */
  function Prepend(u: CodeUnit, read: Option<(JsString, JsString)>): Option<(JsString, JsString)> {
    match read
    case None => None
    case Some((v, rest)) => Some(([u] + v, rest))
  }

  /** A unit written as itself reads back as itself. */
  lemma PlainReadsBack(u: CodeUnit, tail: JsString)
    requires 0x20 <= u && u != QUOTE && u != BACKSLASH
    ensures ReadString([u] + tail) == Prepend(u, ReadString(tail))
  {
    assert ([u] + tail)[1..] == tail;
  }

  /** A two-character escape reads back as the unit it stands for. */
  lemma ShortEscapeReadsBack(c: CodeUnit, u: CodeUnit, tail: JsString)
    requires Unescaped([c] + tail) == Some((u, 1))
    ensures ReadString([BACKSLASH, c] + tail) == Prepend(u, ReadString(tail))
  {
    var t := [BACKSLASH, c] + tail;
    assert t[1..] == [c] + tail;
    assert t[2..] == tail;
  }

  /** A `\u` escape reads back as the unit it stands for. */
  lemma UnicodeEscapeReadsBack(u: CodeUnit, tail: JsString)
    ensures ReadString(UnicodeEscape(u) + tail) == Prepend(u, ReadString(tail))
  {
    var e := UnicodeEscape(u);
    var t := e + tail;
    assert t[1..][1..5] == e[2..];
    assert Unescaped(t[1..]) == Some((u, 5));
    assert t[6..] == tail;
  }

  /** Reading one unit's escape and then any text is reading that text
      with the unit in front. */
  lemma EscapeAtReadsBack(s: JsString, i: nat, tail: JsString)
    requires i < |s|
    ensures ReadString(EscapeAt(s, i) + tail) == Prepend(s[i], ReadString(tail))
  {
    var u := s[i];
    if u == 0x08 {
      ShortEscapeReadsBack(0x62, u, tail);
    } else if u == 0x09 {
      ShortEscapeReadsBack(0x74, u, tail);
    } else if u == 0x0A {
      ShortEscapeReadsBack(0x6E, u, tail);
    } else if u == 0x0C {
      ShortEscapeReadsBack(0x66, u, tail);
    } else if u == 0x0D {
      ShortEscapeReadsBack(0x72, u, tail);
    } else if u == QUOTE || u == BACKSLASH {
      ShortEscapeReadsBack(u, u, tail);
    } else if u < 0x20 || LoneSurrogate(s, i) {
      UnicodeEscapeReadsBack(u, tail);
    } else {
      PlainReadsBack(u, tail);
    }
  }

  /** The escaped units from `i` on start with the escape of the unit at `i`. */
  lemma EscapeFromSplit(s: JsString, i: nat, rest: JsString)
    requires i < |s|
    ensures EscapeFrom(s, i) + [QUOTE] + rest == EscapeAt(s, i) + (EscapeFrom(s, i + 1) + [QUOTE] + rest)
  {
  }

  /** The escaped units of `s`, the closing quote and any text read back
      to `s` and that text. */
  lemma {:induction false} EscapeFromReadsBack(s: JsString, i: nat, rest: JsString)
    requires i <= |s|
    ensures ReadString(EscapeFrom(s, i) + [QUOTE] + rest) == Some((s[i..], rest))
    decreases |s| - i
  {
    if i == |s| {
      assert EscapeFrom(s, i) + [QUOTE] + rest == [QUOTE] + rest;
    } else {
      var tail := EscapeFrom(s, i + 1) + [QUOTE] + rest;
      EscapeFromSplit(s, i, rest);
      EscapeFromReadsBack(s, i + 1, rest);
      EscapeAtReadsBack(s, i, tail);
      assert [s[i]] + s[i + 1..] == s[i..];
    }
  }

  /** What `JSON.stringify` writes for a string reads back as that string,
      whatever follows it. */
  lemma QuoteReadsBack(s: JsString, rest: JsString)
    ensures (Quote(s) + rest)[0] == QUOTE
    ensures ReadString((Quote(s) + rest)[1..]) == Some((s, rest))
  {
    assert (Quote(s) + rest)[1..] == EscapeFrom(s, 0) + [QUOTE] + rest;
    EscapeFromReadsBack(s, 0, rest);
    assert s[0..] == s;
  }
}
