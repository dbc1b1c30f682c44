/** JavaScript strings as the application's code sees them: sequences of
    UTF-16 code units. `length`, `slice` and regular expressions without the
    `u` flag all count and match code units, so an emoji outside the Basic
    Multilingual Plane is two elements here. This module holds the
    `String.prototype` operations the application uses. */
module JsText {
  import opened Wrappers

  newtype CodeUnit = x: int | 0 <= x < 0x1_0000

  type JsString = seq<CodeUnit>

  // ---------------------------------------------------------------------
  // String literals
  // ---------------------------------------------------------------------

  /** A character of the Basic Multilingual Plane: one UTF-16 code unit. */
  predicate InBmp(s: string) {
    forall i :: 0 <= i < |s| ==> s[i] as int < 0x1_0000
  }

  /** The code units of a literal written with characters of the Basic
      Multilingual Plane: each character is one unit of the same value.
      (Every literal of the model is of that kind; a character beyond the
      plane would become U+FFFD here. The few literals with emoji are
      spelled out as units.) */
  function Lit(s: string): (r: JsString)
    ensures |r| == |s|
    ensures forall i :: 0 <= i < |s| && s[i] as int < 0x1_0000 ==> r[i] as int == s[i] as int
  {
    seq(|s|, i requires 0 <= i < |s| => if s[i] as int < 0x1_0000 then s[i] as int as CodeUnit else 0xFFFD)
  }

  // Single code units used by the scanners and builders.
  const TAB: CodeUnit := 0x09
  const NEWLINE: CodeUnit := 0x0A
  const SPACE: CodeUnit := 0x20
  const QUOTE: CodeUnit := 0x22
  const DOT: CodeUnit := 0x2E
  const SLASH: CodeUnit := 0x2F
  const COLON: CodeUnit := 0x3A
  const BACKTICK: CodeUnit := 0x60
  const BULLET: CodeUnit := 0x2022

  // ---------------------------------------------------------------------
  // Whitespace and trimming
  // ---------------------------------------------------------------------

  /** ECMAScript WhiteSpace or LineTerminator: the set removed by `trim()`
      and matched by `\s`. */
  predicate IsSpace(u: CodeUnit) {
    u == 0x09 || u == 0x0A || u == 0x0B || u == 0x0C || u == 0x0D || u == 0x20
    || u == 0xA0 || u == 0x1680 || (0x2000 <= u <= 0x200A) || u == 0x2028 || u == 0x2029
    || u == 0x202F || u == 0x205F || u == 0x3000 || u == 0xFEFF
  }

  predicate AllSpace(s: JsString) {
    forall k :: 0 <= k < |s| ==> IsSpace(s[k])
  }

  /** The number of whitespace units at the start of `s`. */
  function LeadingSpaces(s: JsString): (n: nat)
    ensures n <= |s|
    ensures forall k :: 0 <= k < n ==> IsSpace(s[k])
    ensures n < |s| ==> !IsSpace(s[n])
  {
    if s == [] || !IsSpace(s[0]) then 0 else 1 + LeadingSpaces(s[1..])
  }

  /** The number of whitespace units at the end of `s`. */
  function TrailingSpaces(s: JsString): (n: nat)
    ensures n <= |s|
    ensures forall k :: |s| - n <= k < |s| ==> IsSpace(s[k])
    ensures n < |s| ==> !IsSpace(s[|s| - 1 - n])
  {
    if s == [] || !IsSpace(s[|s| - 1]) then 0 else 1 + TrailingSpaces(s[..|s| - 1])
  }

  /** `String.prototype.trimStart`. */
  function TrimStart(s: JsString): (r: JsString)
    ensures |r| <= |s|
    ensures r == s[|s| - |r|..]
    ensures r == [] || !IsSpace(r[0])
    ensures AllSpace(s[..|s| - |r|])
  {
    s[LeadingSpaces(s)..]
  }

  /** `String.prototype.trimEnd`. */
  function TrimEnd(s: JsString): (r: JsString)
    ensures |r| <= |s|
    ensures r == s[..|r|]
    ensures r == [] || !IsSpace(r[|r| - 1])
    ensures AllSpace(s[|r|..])
  {
    s[..|s| - TrailingSpaces(s)]
  }

  predicate Trimmed(s: JsString) {
    s == [] || (!IsSpace(s[0]) && !IsSpace(s[|s| - 1]))
  }

  /** `String.prototype.trim`: `s` split as spaces + result + spaces. */
  function Trim(s: JsString): (r: JsString)
    ensures Trimmed(r)
    ensures |r| <= |s|
  {
    TrimEnd(TrimStart(s))
  }

  /** Trimming only removes units. */
  lemma TrimWithin(s: JsString)
    ensures forall u :: u in Trim(s) ==> u in s
  {
    var t := TrimStart(s);
    assert forall u :: u in TrimEnd(t) ==> u in t;
    assert forall u :: u in t ==> u in s;
  }

  /** `trim()` gives "" exactly for a string of whitespace. */
  lemma TrimEmpty(s: JsString)
    ensures Trim(s) == [] <==> AllSpace(s)
  {
    var t := TrimStart(s);
    if AllSpace(t) {
      forall k | 0 <= k < |s| ensures IsSpace(s[k]) {
        if k < |s| - |t| { assert s[k] == s[..|s| - |t|][k]; }
      }
    }
  }

  /** Trimming is determined by any split of `s` into spaces, a trimmed
      middle and spaces: the middle is what `trim()` returns. */
  lemma {:induction false} TrimSplit(x: JsString, m: JsString, y: JsString)
    requires AllSpace(x) && AllSpace(y) && Trimmed(m)
    ensures Trim(x + m + y) == m
  {
    var s := x + m + y;
    var n := LeadingSpaces(s);
    if m == [] {
      assert AllSpace(s) by {
        forall k | 0 <= k < |s| ensures IsSpace(s[k]) {
          if k < |x| { assert s[k] == x[k]; } else { assert s[k] == y[k - |x|]; }
        }
      }
    } else {
      assert s[|x|] == m[0];
      assert forall k :: 0 <= k < |x| ==> s[k] == x[k];
      assert n == |x|;
      var t := s[n..];
      assert t == m + y;
      var e := TrailingSpaces(t);
      assert t[|m| - 1] == m[|m| - 1];
      assert forall k :: |m| <= k < |t| ==> t[k] == y[k - |m|];
      assert e == |y|;
      assert TrimEnd(t) == m;
    }
  }

  /** Trimming is idempotent. */
  lemma TrimTrimmed(s: JsString)
    requires Trimmed(s)
    ensures Trim(s) == s
  {
    if s != [] {
      assert LeadingSpaces(s) == 0;
      assert TrimStart(s) == s;
      assert TrailingSpaces(s) == 0;
    }
  }

  // ---------------------------------------------------------------------
  // Prefixes and suffixes
  // ---------------------------------------------------------------------

  /** A string value is truthy when it is present and not "". */
  predicate Truthy(s: Option<JsString>) {
    s.Some? && s.value != []
  }

  /** `a || b` on optional strings. */
  function OrElse(a: Option<JsString>, b: JsString): (r: JsString)
    ensures Truthy(a) ==> r == a.value
    ensures !Truthy(a) ==> r == b
  {
    if Truthy(a) then a.value else b
  }

  predicate StartsWith(s: JsString, p: JsString) {
    |p| <= |s| && s[..|p|] == p
  }

  predicate EndsWith(s: JsString, p: JsString) {
    |p| <= |s| && s[|s| - |p|..] == p
  }

  // ---------------------------------------------------------------------
  // Case mapping (Basic Latin and Latin-1 Supplement)
  // ---------------------------------------------------------------------

  /** `toUpperCase` of one code unit, for the letters of Basic Latin and
      Latin-1; every other unit is returned unchanged. */
  function UpperUnit(u: CodeUnit): CodeUnit
  {
    if 0x61 <= u <= 0x7A then u - 0x20
    else if 0xE0 <= u <= 0xFE && u != 0xF7 then u - 0x20
    else if u == 0xB5 then 0x039C
    else if u == 0xFF then 0x0178
    else u
  }

  /** `toLowerCase` of one code unit, same range as UpperUnit. */
  function LowerUnit(u: CodeUnit): CodeUnit
  {
    if 0x41 <= u <= 0x5A then u + 0x20
    else if 0xC0 <= u <= 0xDE && u != 0xD7 then u + 0x20
    else u
  }

  function ToUpper(s: JsString): (r: JsString)
    ensures |r| == |s|
    ensures forall k :: 0 <= k < |s| ==> r[k] == UpperUnit(s[k])
  {
    seq(|s|, k requires 0 <= k < |s| => UpperUnit(s[k]))
  }

  function ToLower(s: JsString): (r: JsString)
    ensures |r| == |s|
    ensures forall k :: 0 <= k < |s| ==> r[k] == LowerUnit(s[k])
  {
    seq(|s|, k requires 0 <= k < |s| => LowerUnit(s[k]))
  }

  /** Upper-casing twice is upper-casing once. */
  lemma UpperIdempotent(s: JsString)
    ensures ToUpper(ToUpper(s)) == ToUpper(s)
  {
  }

  /** Lower-casing twice is lower-casing once. */
  lemma LowerIdempotent(s: JsString)
    ensures ToLower(ToLower(s)) == ToLower(s)
  {
  }

  // ---------------------------------------------------------------------
  // Decimal digits
  // ---------------------------------------------------------------------

  predicate IsDigit(u: CodeUnit) {
    0x30 <= u <= 0x39
  }

  predicate AllDigits(s: JsString) {
    forall k :: 0 <= k < |s| ==> IsDigit(s[k])
  }

  /** The number a run of decimal digits denotes. */
  function DigitsValue(s: JsString): nat
    requires AllDigits(s)
  {
    if s == [] then 0 else 10 * DigitsValue(s[..|s| - 1]) + (s[|s| - 1] - 0x30) as int
  }

  /** The shortest decimal rendering of `n` (JavaScript's `String(n)` for
      a non-negative integer). */
  function DigitsText(n: nat): (r: JsString)
    ensures r != [] && AllDigits(r)
    ensures |r| > 1 ==> r[0] != 0x30
  {
    if n < 10 then [(n + 0x30) as CodeUnit]
    else DigitsText(n / 10) + [(n % 10 + 0x30) as CodeUnit]
  }

  /** Reading back a rendered number gives the number. */
  lemma {:induction false} DigitsRoundTrip(n: nat)
    ensures DigitsValue(DigitsText(n)) == n
  {
    if n >= 10 {
      DigitsRoundTrip(n / 10);
      var r := DigitsText(n);
      assert r[..|r| - 1] == DigitsText(n / 10);
    }
  }
}
