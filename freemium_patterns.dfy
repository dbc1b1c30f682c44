/** The three regular expressions of the free-tier result card, as
    scanners. Each pattern has a declarative description of what it
    matches (a ghost predicate) and a scanner that tries it at one
    position; the two are proved to agree in both directions, so that "the
    first match" used by the card has a meaning of its own. */
module FreemiumPatterns {
  import opened Wrappers
  import opened JsText
  import opened Scan

  // The pattern pieces. Upper-casing leaves surrogates alone, so the emoji
  // are compared unit by unit even under the `i` flag.
  const MEGAPHONE: JsString := [0xD83D, 0xDCE2]   // 📢
  const GRIMACE: JsString := [0xD83D, 0xDE2C]     // 😬
  const CHART: JsString := [0xD83D, 0xDCCA]       // 📊
  const CHECK_MARK: CodeUnit := 0x2705             // ✅

  const SCORE_LABEL := Lit("NOTA:")   // "Nota:"
  const TEN := Lit("10")
  const IMPRESSION_HEADER := Lit("A PRIMEIRA IMPRESSÃO")
  const REALITY_HEADER := Lit("O CHOQUE DE REALIDADE")

  const DEFAULT_IMPRESSION := Lit("Seu CV tem potencial, mas precisa de ajustes...")
  const DEFAULT_CRITICAL_ERROR := Lit("Falta de métricas e resultados concretos nas experiências.")

  /** The capitals `w` occur at `p` once the text is upper-cased: a
      literal under the `i` flag, written here in its upper-case form. */
  predicate LiteralAt(s: JsString, p: nat, w: JsString) {
    p + |w| <= |s| && SameUpper(s[p..p + |w|], w)
  }

  /** `x` upper-cased is `w`. */
  predicate SameUpper(x: JsString, w: JsString) {
    |x| == |w| && forall i :: 0 <= i < |x| ==> UpperUnit(x[i]) == w[i]
  }

  /** `w` occurs at `p` exactly. */
  predicate UnitsAt(s: JsString, p: nat, w: JsString) {
    p + |w| <= |s| && s[p..p + |w|] == w
  }

  // ---------------------------------------------------------------------
  // The score: /Nota:\s*(\d+(?:\.\d+)?)\s*\/\s*10/i
  // ---------------------------------------------------------------------

  /** A decimal number read from text: `mantissa / 10^scale`. */
  datatype Decimal = Decimal(mantissa: nat, scale: nat)

  const DEFAULT_SCORE := Decimal(5, 0)

  function Pow10(n: nat): (r: nat)
    ensures r >= 1
  {
    if n == 0 then 1 else 10 * Pow10(n - 1)
  }

  /** The number the digits s[a..b] denote. */
  function DigitsAt(s: JsString, a: nat, b: nat): nat
    requires a <= b <= |s|
    decreases b - a
  {
    if b == a then 0 else 10 * DigitsAt(s, a, b - 1) + if IsDigit(s[b - 1]) then (s[b - 1] - 0x30) as nat else 0
  }

  /** The pattern matches at `p` with its group s[a..c], of which s[a..b]
      is the whole part: what the expression says, with nothing about how
      the engine backtracks. */
  ghost predicate ScoreMatch(s: JsString, p: nat, a: nat, b: nat, c: nat) {
    LiteralAt(s, p, SCORE_LABEL) && p + |SCORE_LABEL| <= a && NumberMatch(s, a, b, c)
    && (forall t :: p + |SCORE_LABEL| <= t < a ==> IsSpace(s[t]))
    && exists d: nat, e: nat :: ScoreTail(s, c, d, e)
  }

  /** `\d+(?:\.\d+)?` matches s[a..c], the whole part being s[a..b]. */
  predicate NumberMatch(s: JsString, a: nat, b: nat, c: nat) {
    a < b <= c <= |s|
    && (forall t :: a <= t < b ==> IsDigit(s[t]))
    && (c == b || (s[b] == DOT && b + 1 < c && forall t :: b + 1 <= t < c ==> IsDigit(s[t])))
  }

  /** `\s*\/\s*10` from `c`, the slash at `d` and the "10" at `e`. */
  predicate ScoreTail(s: JsString, c: nat, d: nat, e: nat) {
    c <= d < e && d < |s| && s[d] == SLASH && LiteralAt(s, e, TEN)
    && (forall t :: c <= t < d ==> IsSpace(s[t]))
    && (forall t :: d + 1 <= t < e ==> IsSpace(s[t]))
  }

  /** The number the group s[a..c] denotes (`parseFloat` without its
      rounding to a double): the whole part, then the fraction digits. */
  function GroupValue(s: JsString, a: nat, b: nat, c: nat): (d: Decimal)
    requires NumberMatch(s, a, b, c)
    ensures d.scale == if c == b then 0 else c - b - 1
  {
    var whole := DigitsAt(s, a, b);
    if c == b then Decimal(whole, 0)
    else Decimal(whole * Pow10(c - b - 1) + DigitsAt(s, b + 1, c), c - b - 1)
  }

  /** Where the greedy `\d+` from `a` ends. */
  function WholeEnd(s: JsString, a: nat): (b: nat)
    requires a <= |s|
    ensures a <= b <= |s|
  {
    a + Span(s, a, IsDigit)
  }

  /** Where the optional `(?:\.\d+)` from `b` ends: it is taken when a
      point and at least one digit follow. */
  function GroupEnd(s: JsString, b: nat): (c: nat)
    requires b <= |s|
    ensures b <= c <= |s|
  {
    if b < |s| && s[b] == DOT && Span(s, b + 1, IsDigit) > 0 then b + 1 + Span(s, b + 1, IsDigit) else b
  }

  lemma NumberEndMatch(s: JsString, a: nat)
    requires a <= |s| && WholeEnd(s, a) > a
    ensures NumberMatch(s, a, WholeEnd(s, a), GroupEnd(s, WholeEnd(s, a)))
  {
    SpanRun(s, a, IsDigit);
    var b := WholeEnd(s, a);
    if b < |s| && s[b] == DOT {
      SpanRun(s, b + 1, IsDigit);
    }
  }

  /** Whether `\s*\/\s*10` matches from `c`. */
  function TailAt(s: JsString, c: nat): bool
    requires c <= |s|
  {
    var d := c + Span(s, c, IsSpace);
    d < |s| && s[d] == SLASH && LiteralAt(s, d + 1 + Span(s, d + 1, IsSpace), TEN)
  }

  lemma TailAtSound(s: JsString, c: nat)
    requires c <= |s| && TailAt(s, c)
    ensures exists d: nat, e: nat :: ScoreTail(s, c, d, e)
  {
    var d := c + Span(s, c, IsSpace);
    SpanRun(s, c, IsSpace);
    SpanRun(s, d + 1, IsSpace);
    assert ScoreTail(s, c, d, d + 1 + Span(s, d + 1, IsSpace));
  }

  /** The scanner: the score the pattern reads when it is tried at `p`. */
  function ScoreAt(s: JsString, p: nat): Option<Decimal> {
    if !LiteralAt(s, p, SCORE_LABEL) then None
    else
      var a := p + |SCORE_LABEL| + Span(s, p + |SCORE_LABEL|, IsSpace);
      var b := WholeEnd(s, a);
      var c := GroupEnd(s, b);
      if b > a && TailAt(s, c) then NumberEndMatch(s, a); Some(GroupValue(s, a, b, c)) else None
  }

  /** What the scanner reads is a match of the pattern. */
  lemma ScoreAtSound(s: JsString, p: nat)
    requires ScoreAt(s, p).Some?
    ensures exists a: nat, b: nat, c: nat ::
      ScoreMatch(s, p, a, b, c) && ScoreAt(s, p) == Some(GroupValue(s, a, b, c))
  {
    assert LiteralAt(s, p, SCORE_LABEL);
    var a := p + |SCORE_LABEL| + Span(s, p + |SCORE_LABEL|, IsSpace);
    var b := WholeEnd(s, a);
    var c := GroupEnd(s, b);
    NumberEndMatch(s, a);
    SpanRun(s, p + |SCORE_LABEL|, IsSpace);
    TailAtSound(s, c);
    ScoreAtFrom(s, p, a, b, c);
    assert ScoreMatch(s, p, a, b, c);
  }

  /** A number match that the next unit cannot extend is the greedy one. */
  lemma NumberEndUnique(s: JsString, a: nat, b: nat, c: nat)
    requires NumberMatch(s, a, b, c)
    requires c < |s| && !IsDigit(s[c]) && s[c] != DOT
    ensures WholeEnd(s, a) == b && GroupEnd(s, b) == c
  {
    if c == b {
      SpanUnique(s, a, b - a, IsDigit);
    } else {
      assert !IsDigit(s[b]);
      SpanUnique(s, a, b - a, IsDigit);
      SpanUnique(s, b + 1, c - b - 1, IsDigit);
    }
  }

  /** A tail match makes the tail test succeed. */
  lemma TailAtComplete(s: JsString, c: nat, d: nat, e: nat)
    requires ScoreTail(s, c, d, e)
    ensures TailAt(s, c)
  {
    SpanUnique(s, c, d - c, IsSpace);
    assert s[e..e + 2][0] == s[e];
    SpanUnique(s, d + 1, e - d - 1, IsSpace);
  }

  /** Every match of the pattern at `p` is what the scanner reads there:
      the pattern cannot match at `p` in two ways with different numbers. */
  lemma ScoreAtComplete(s: JsString, p: nat, a: nat, b: nat, c: nat)
    requires ScoreMatch(s, p, a, b, c)
    ensures ScoreAt(s, p) == Some(GroupValue(s, a, b, c))
  {
    var d: nat, e: nat :| ScoreTail(s, c, d, e);
    var start := p + |SCORE_LABEL|;
    SpanUnique(s, start, a - start, IsSpace);
    assert !IsSpace(s[d]) && !IsDigit(s[d]);
    assert c < |s| && !IsDigit(s[c]) && s[c] != DOT by {
      if d > c { assert IsSpace(s[c]); }
    }
    NumberEndUnique(s, a, b, c);
    TailAtComplete(s, c, d, e);
    ScoreAtFrom(s, p, a, b, c);
  }

  /** The scanner's result once the label, the number and the tail are
      known to be where they are. */
  lemma ScoreAtFrom(s: JsString, p: nat, a: nat, b: nat, c: nat)
    requires LiteralAt(s, p, SCORE_LABEL)
    requires a == p + |SCORE_LABEL| + Span(s, p + |SCORE_LABEL|, IsSpace)
    requires WholeEnd(s, a) == b && GroupEnd(s, b) == c && NumberMatch(s, a, b, c) && TailAt(s, c)
    ensures ScoreAt(s, p) == Some(GroupValue(s, a, b, c))
  {
  }

  // ---------------------------------------------------------------------
  // Section headers: an emoji, spaces, then a title in any case
  // ---------------------------------------------------------------------

  /** `emoji\s*header` matches at `p`, the header starting at `h`. */
  ghost predicate HeaderAt(s: JsString, p: nat, emoji: JsString, h: nat, header: JsString) {
    UnitsAt(s, p, emoji) && p + |emoji| <= h && LiteralAt(s, h, header)
    && forall t :: p + |emoji| <= t < h ==> IsSpace(s[t])
  }

  /** Where `emoji\s*header` tried at `p` ends, if it matches. */
  function HeaderEnd(s: JsString, p: nat, emoji: JsString, header: JsString): (r: Option<nat>)
    ensures r.Some? ==> |header| <= r.value <= |s|
  {
    if !UnitsAt(s, p, emoji) then None
    else
      var h := p + |emoji| + Span(s, p + |emoji|, IsSpace);
      if LiteralAt(s, h, header) then Some(h + |header|) else None
  }

  /** Where the scanner finds a header, the pattern matches. */
  lemma HeaderEndSound(s: JsString, p: nat, emoji: JsString, header: JsString)
    requires HeaderEnd(s, p, emoji, header).Some?
    ensures HeaderAt(s, p, emoji, HeaderEnd(s, p, emoji, header).value - |header|, header)
  {
    SpanRun(s, p + |emoji|, IsSpace);
  }

  /** A header that starts with a capital letter is found where it is. */
  lemma HeaderEndComplete(s: JsString, p: nat, emoji: JsString, h: nat, header: JsString)
    requires HeaderAt(s, p, emoji, h, header)
    requires header != [] && 0x41 <= header[0] <= 0x5A
    ensures HeaderEnd(s, p, emoji, header) == Some(h + |header|)
  {
    assert s[h..h + |header|][0] == s[h];
    SpanUnique(s, p + |emoji|, h - p - |emoji|, IsSpace);
  }

  /** Both section titles open with a capital letter. */
  lemma HeadersOpenWithCapital()
    ensures IMPRESSION_HEADER != [] && 0x41 <= IMPRESSION_HEADER[0] <= 0x5A
    ensures REALITY_HEADER != [] && 0x41 <= REALITY_HEADER[0] <= 0x5A
  {
  }

  // ---------------------------------------------------------------------
  // The first impression:
  //   /📢\s*A PRIMEIRA IMPRESSÃO\s*\n([^\n✅😬📊]+)/i
  // ---------------------------------------------------------------------

  /** The units the class `[^\n✅😬📊]` refuses. Without the `u` flag the
      two emoji in it are their surrogate halves, so any unit equal to one
      of those halves is refused, whichever emoji it belongs to. */
  predicate Refused(u: CodeUnit) {
    u == NEWLINE || u == CHECK_MARK || u == 0xD83D || u == 0xDE2C || u == 0xDCCA
  }

  predicate Accepted(u: CodeUnit) {
    !Refused(u)
  }

  /** A newline at `k` followed by a unit the class accepts: a place where
      `\n([^…]+)` can match. */
  predicate LineStart(s: JsString, k: nat) {
    k + 1 < |s| && s[k] == NEWLINE && Accepted(s[k + 1])
  }

  /** The pattern matches at `p`; the header starts at `h`, the newline
      `\n` is at `k` and the group is s[k + 1..e]. */
  ghost predicate ImpressionMatch(s: JsString, p: nat, h: nat, k: nat, e: nat) {
    HeaderAt(s, p, MEGAPHONE, h, IMPRESSION_HEADER) && LineAfter(s, h + |IMPRESSION_HEADER|, k, e)
  }

  /** `\s*\n([^\n✅😬📊]+)` matches from `q`, the newline at `k` and the
      group s[k + 1..e]. The `\s*` is greedy, so `k` is the last newline
      it can reach that the group can follow; the group is greedy, so `e`
      cannot be moved on. */
  ghost predicate LineAfter(s: JsString, q: nat, k: nat, e: nat) {
    q <= k && LineStart(s, k)
    && SpacesBetween(s, q, k)
    && (forall k' :: k < k' < |s| && SpacesBetween(s, q, k') ==> !LineStart(s, k'))
    && k + 1 < e <= |s|
    && (forall t :: k + 1 <= t < e ==> Accepted(s[t]))
    && (e == |s| || Refused(s[e]))
  }

  /** Only whitespace in s[q..k]. */
  predicate SpacesBetween(s: JsString, q: nat, k: nat) {
    forall t :: q <= t < k && t < |s| ==> IsSpace(s[t])
  }

  /** The scanner for `\s*\n` from `q`: the newline the engine settles on. */
  function LineFrom(s: JsString, q: nat): (r: Option<nat>)
    requires q <= |s|
    ensures r.Some? ==> q <= r.value < |s|
  {
    Last((k: nat) => LineStart(s, k), q, q + Span(s, q, IsSpace))
  }

  /** Where the greedy group that starts after the newline at `k` ends. */
  function LineEnd(s: JsString, k: nat): (e: nat)
    requires k < |s|
    ensures k + 1 <= e <= |s|
  {
    k + 1 + Span(s, k + 1, Accepted)
  }

  /** The group after a newline holds only units the class accepts. */
  lemma LineAccepted(s: JsString, k: nat)
    requires k < |s|
    ensures forall u :: u in s[k + 1..LineEnd(s, k)] ==> Accepted(u)
  {
    SpanRun(s, k + 1, Accepted);
  }

  lemma LineFromSound(s: JsString, q: nat)
    requires q <= |s| && LineFrom(s, q).Some?
    ensures LineAfter(s, q, LineFrom(s, q).value, LineEnd(s, LineFrom(s, q).value))
  {
    var k := LineFrom(s, q).value;
    LineFromFound(s, q);
    SpanRun(s, q, IsSpace);
    SpanRun(s, k + 1, Accepted);
    forall k' | k < k' < |s| && SpacesBetween(s, q, k') ensures !LineStart(s, k') {
      if s[k'] == NEWLINE {
        SpanCovers(s, q, k' + 1, IsSpace);
      }
    }
  }

  /** The newline found is the last one of the whitespace run from `q`
      that a group can follow. */
  lemma LineFromFound(s: JsString, q: nat)
    requires q <= |s| && LineFrom(s, q).Some?
    ensures var k, r := LineFrom(s, q).value, q + Span(s, q, IsSpace);
      && LineStart(s, k) && k < r
      && forall k' :: k < k' < r ==> !LineStart(s, k')
  {
    var ok := (k: nat) => LineStart(s, k);
    var r := q + Span(s, q, IsSpace);
    LastFound(ok, q, r);
    var k := LineFrom(s, q).value;
    forall k' | k < k' < r ensures !LineStart(s, k') {
      assert !ok(k');
    }
  }

  /** The last newline of the run that a group can follow is the one found. */
  lemma LineFromIs(s: JsString, q: nat, k: nat)
    requires q <= |s| && q <= k < q + Span(s, q, IsSpace) && LineStart(s, k)
    requires forall k' :: k < k' < q + Span(s, q, IsSpace) ==> !LineStart(s, k')
    ensures LineFrom(s, q) == Some(k)
  {
    var ok := (k: nat) => LineStart(s, k);
    var r := q + Span(s, q, IsSpace);
    forall k' | k < k' < r ensures !ok(k') {
      assert !LineStart(s, k');
    }
    LastUnique(ok, q, r, k);
  }

  lemma LineFromComplete(s: JsString, q: nat, k: nat, e: nat)
    requires q <= |s| && LineAfter(s, q, k, e)
    ensures LineFrom(s, q) == Some(k) && LineEnd(s, k) == e
  {
    var r := q + Span(s, q, IsSpace);
    SpanCovers(s, q, k + 1, IsSpace);
    SpanRun(s, q, IsSpace);
    forall k' | k < k' < r ensures !LineStart(s, k') {
      assert SpacesBetween(s, q, k');
    }
    LineFromIs(s, q, k);
    SpanUnique(s, k + 1, e - k - 1, Accepted);
  }

  /** The scanner: the newline before the captured line when the pattern
      is tried at `p`. */
  function ImpressionLine(s: JsString, p: nat): (r: Option<nat>)
    ensures r.Some? ==> r.value < |s|
  {
    match HeaderEnd(s, p, MEGAPHONE, IMPRESSION_HEADER)
    case None => None
    case Some(q) => LineFrom(s, q)
  }

  /** A line the scanner reports follows a header ending at `q`: the
      pattern matches there. */
  lemma ImpressionLineSound(s: JsString, p: nat, q: nat, k: nat)
    requires HeaderEnd(s, p, MEGAPHONE, IMPRESSION_HEADER) == Some(q) && ImpressionLine(s, p) == Some(k)
    ensures |IMPRESSION_HEADER| <= q && ImpressionMatch(s, p, q - |IMPRESSION_HEADER|, k, LineEnd(s, k))
  {
    ImpressionSoundAt(s, p, q, k);
  }

  /** The same, from the header's end and the line scanner's answer. */
  lemma ImpressionSoundAt(s: JsString, p: nat, q: nat, k: nat)
    requires HeaderEnd(s, p, MEGAPHONE, IMPRESSION_HEADER) == Some(q) && LineFrom(s, q) == Some(k)
    ensures |IMPRESSION_HEADER| <= q && ImpressionMatch(s, p, q - |IMPRESSION_HEADER|, k, LineEnd(s, k))
  {
    var h := q - |IMPRESSION_HEADER|;
    HeaderEndSound(s, p, MEGAPHONE, IMPRESSION_HEADER);
    assert HeaderAt(s, p, MEGAPHONE, h, IMPRESSION_HEADER);
    LineFromSound(s, q);
    assert h + |IMPRESSION_HEADER| == q;
    assert LineAfter(s, h + |IMPRESSION_HEADER|, k, LineEnd(s, k));
  }

  lemma ImpressionLineComplete(s: JsString, p: nat, h: nat, k: nat, e: nat)
    requires ImpressionMatch(s, p, h, k, e)
    ensures ImpressionLine(s, p) == Some(k) && LineEnd(s, k) == e
  {
    HeadersOpenWithCapital();
    HeaderEndComplete(s, p, MEGAPHONE, h, IMPRESSION_HEADER);
    LineFromComplete(s, h + |IMPRESSION_HEADER|, k, e);
  }


  // ---------------------------------------------------------------------
  // The reality check:
  //   /😬\s*O CHOQUE DE REALIDADE\s*\n([\s\S]*?)(?=📊|$)/i
  // ---------------------------------------------------------------------

  /** The pattern matches at `p`; the header starts at `h`, the newline is
      at `k` and the group is s[k + 1..e]. */
  ghost predicate RealityMatch(s: JsString, p: nat, h: nat, k: nat, e: nat) {
    HeaderAt(s, p, GRIMACE, h, REALITY_HEADER) && NewlineAfter(s, h + |REALITY_HEADER|, k)
    && SectionTo(s, k + 1, e)
  }

  /** `\s*\n` from `q` ends with the newline at `k`. The group after it
      accepts anything, so the greedy `\s*` backs off only to the last
      newline of the whitespace run. */
  ghost predicate NewlineAfter(s: JsString, q: nat, k: nat) {
    q <= k < |s| && s[k] == NEWLINE && SpacesBetween(s, q, k)
    && forall k' :: k < k' < |s| && SpacesBetween(s, q, k') ==> !IsNewline(s, k')
  }

  /** The lazy `[\s\S]*?` from `from` stops at `e`: the first 📊 from
      there on, or the end of the text (`$` without the `m` flag). */
  ghost predicate SectionTo(s: JsString, from: nat, e: nat) {
    from <= e <= |s| && (e == |s| || UnitsAt(s, e, CHART))
    && forall t :: from <= t < e ==> !UnitsAt(s, t, CHART)
  }

  predicate IsNewline(s: JsString, k: nat) {
    k < |s| && s[k] == NEWLINE
  }

  /** The scanner for `\s*\n` from `q`. */
  function NewlineFrom(s: JsString, q: nat): (r: Option<nat>)
    requires q <= |s|
    ensures r.Some? ==> q <= r.value < |s|
  {
    Last((k: nat) => IsNewline(s, k), q, q + Span(s, q, IsSpace))
  }

  lemma NewlineFromSound(s: JsString, q: nat)
    requires q <= |s| && NewlineFrom(s, q).Some?
    ensures NewlineAfter(s, q, NewlineFrom(s, q).value)
  {
    var r := q + Span(s, q, IsSpace);
    var k := NewlineFrom(s, q).value;
    var ok := (k: nat) => IsNewline(s, k);
    LastFound(ok, q, r);
    SpanRun(s, q, IsSpace);
    forall k' | k < k' < |s| && SpacesBetween(s, q, k') ensures !IsNewline(s, k') {
      assert k' < r ==> !ok(k');
    }
  }

  lemma NewlineFromComplete(s: JsString, q: nat, k: nat)
    requires q <= |s| && NewlineAfter(s, q, k)
    ensures NewlineFrom(s, q) == Some(k)
  {
    var r := q + Span(s, q, IsSpace);
    SpanCovers(s, q, k + 1, IsSpace);
    SpanRun(s, q, IsSpace);
    var ok := (k: nat) => IsNewline(s, k);
    forall k' | k < k' < r ensures !ok(k') {
      assert SpacesBetween(s, q, k');
    }
    LastUnique(ok, q, r, k);
  }

  /** The scanner for the lazy group: where it stops. */
  function SectionEnd(s: JsString, from: nat): (e: nat)
    requires from <= |s|
    ensures from <= e <= |s|
  {
    FirstWhere((t: nat) => UnitsAt(s, t, CHART), from, |s|)
  }

  lemma SectionEndSound(s: JsString, from: nat)
    requires from <= |s|
    ensures SectionTo(s, from, SectionEnd(s, from))
  {
    var ok := (t: nat) => UnitsAt(s, t, CHART);
    FirstFound(ok, from, |s|);
    var e := SectionEnd(s, from);
    assert e < |s| ==> ok(e);
    forall t | from <= t < e ensures !UnitsAt(s, t, CHART) {
      assert !ok(t);
    }
  }

  lemma SectionEndComplete(s: JsString, from: nat, e: nat)
    requires SectionTo(s, from, e)
    ensures SectionEnd(s, from) == e
  {
    var ok := (t: nat) => UnitsAt(s, t, CHART);
    forall t | from <= t < e ensures !ok(t) {
      assert !UnitsAt(s, t, CHART);
    }
    FirstUnique(ok, from, |s|, e);
  }

  /** The scanner: the newline before the group when the pattern is tried
      at `p`. */
  function RealityLine(s: JsString, p: nat): (r: Option<nat>)
    ensures r.Some? ==> r.value < |s|
  {
    match HeaderEnd(s, p, GRIMACE, REALITY_HEADER)
    case None => None
    case Some(q) => NewlineFrom(s, q)
  }

  /** A newline the scanner reports follows a header ending at `q`: the
      pattern matches there, with the group ending where SectionEnd stops. */
  lemma RealityLineSound(s: JsString, p: nat, q: nat, k: nat)
    requires HeaderEnd(s, p, GRIMACE, REALITY_HEADER) == Some(q) && RealityLine(s, p) == Some(k)
    ensures |REALITY_HEADER| <= q && RealityMatch(s, p, q - |REALITY_HEADER|, k, SectionEnd(s, k + 1))
  {
    RealitySoundAt(s, p, q, k);
  }

  /** The same, from the header's end and the newline scanner's answer. */
  lemma RealitySoundAt(s: JsString, p: nat, q: nat, k: nat)
    requires HeaderEnd(s, p, GRIMACE, REALITY_HEADER) == Some(q) && NewlineFrom(s, q) == Some(k)
    ensures |REALITY_HEADER| <= q && RealityMatch(s, p, q - |REALITY_HEADER|, k, SectionEnd(s, k + 1))
  {
    var h := q - |REALITY_HEADER|;
    HeaderEndSound(s, p, GRIMACE, REALITY_HEADER);
    assert HeaderAt(s, p, GRIMACE, h, REALITY_HEADER);
    NewlineFromSound(s, q);
    assert h + |REALITY_HEADER| == q;
    assert NewlineAfter(s, h + |REALITY_HEADER|, k);
    SectionEndSound(s, k + 1);
  }

  lemma RealityLineComplete(s: JsString, p: nat, h: nat, k: nat, e: nat)
    requires RealityMatch(s, p, h, k, e)
    ensures RealityLine(s, p) == Some(k) && SectionEnd(s, k + 1) == e
  {
    HeadersOpenWithCapital();
    HeaderEndComplete(s, p, GRIMACE, h, REALITY_HEADER);
    NewlineFromComplete(s, h + |REALITY_HEADER|, k);
    SectionEndComplete(s, k + 1, e);
  }

  // ---------------------------------------------------------------------
  // The bullets of the section: /•\s*([^\n•]+)/g
  // ---------------------------------------------------------------------

  /** The units `[^\n•]` accepts. */
  predicate Plain(u: CodeUnit) {
    u != NEWLINE && u != BULLET
  }

  predicate PlainAt(g: JsString, j: nat) {
    j < |g| && Plain(g[j])
  }

  /** The pattern matches at `i` with its group g[j..e]. The greedy `\s*`
      backs off to the last place of its run where the group can start;
      the group is greedy. */
  ghost predicate BulletMatch(g: JsString, i: nat, j: nat, e: nat) {
    BulletStart(g, i, j) && PlainRun(g, j, e)
  }

  /** `•\s*` at `i`, the group starting at `j` where the `\s*` settles. */
  ghost predicate BulletStart(g: JsString, i: nat, j: nat) {
    i < j < |g| && g[i] == BULLET && SpacesBetween(g, i + 1, j)
    && Plain(g[j])
    && (forall j' :: j < j' < |g| && SpacesBetween(g, i + 1, j') ==> !Plain(g[j']))
  }

  /** The greedy `[^\n•]+` from `j` ends at `e`. */
  ghost predicate PlainRun(g: JsString, j: nat, e: nat) {
    j < e <= |g| && (forall t :: j <= t < e ==> Plain(g[t]))
    && (e == |g| || !Plain(g[e]))
  }

  /** The scanner: where the group starts when the pattern is tried at `i`. */
  function BulletAt(g: JsString, i: nat): (r: Option<nat>)
    ensures r.Some? ==> i < r.value < |g|
  {
    if i < |g| && g[i] == BULLET then
      Last((j: nat) => PlainAt(g, j), i + 1, i + 2 + Span(g, i + 1, IsSpace))
    else None
  }

  /** Where the greedy group from `j` ends. */
  function BulletEnd(g: JsString, j: nat): (e: nat)
    requires j <= |g|
    ensures j <= e <= |g|
  {
    j + Span(g, j, Plain)
  }

  lemma BulletAtSound(g: JsString, i: nat)
    requires BulletAt(g, i).Some?
    ensures var j := BulletAt(g, i).value; BulletMatch(g, i, j, BulletEnd(g, j))
  {
    var j := BulletAt(g, i).value;
    BulletStartSound(g, i);
    SpanRun(g, j, Plain);
  }

  lemma BulletStartSound(g: JsString, i: nat)
    requires BulletAt(g, i).Some?
    ensures BulletStart(g, i, BulletAt(g, i).value)
  {
    var j := BulletAt(g, i).value;
    BulletStartFound(g, i);
    SpanRun(g, i + 1, IsSpace);
    forall j' | j < j' < |g| && SpacesBetween(g, i + 1, j') ensures !Plain(g[j']) {
      SpanCovers(g, i + 1, j', IsSpace);
      assert !PlainAt(g, j');
    }
  }

  /** The group starts at the last `[^\n•]` unit among the spaces after
      the bullet and the unit that ends them. */
  lemma BulletStartFound(g: JsString, i: nat)
    requires BulletAt(g, i).Some?
    ensures var j, n := BulletAt(g, i).value, Span(g, i + 1, IsSpace);
      && g[i] == BULLET && PlainAt(g, j) && j <= i + 1 + n
      && forall k :: j < k < i + 2 + n ==> !PlainAt(g, k)
  {
    var ok := (j: nat) => PlainAt(g, j);
    var hi := i + 2 + Span(g, i + 1, IsSpace);
    assert BulletAt(g, i) == Last(ok, i + 1, hi);
    LastFound(ok, i + 1, hi);
    var j := BulletAt(g, i).value;
    forall k | j < k < hi ensures !PlainAt(g, k) {
      assert !ok(k);
    }
  }

  lemma BulletAtComplete(g: JsString, i: nat, j: nat, e: nat)
    requires BulletMatch(g, i, j, e)
    ensures BulletAt(g, i) == Some(j) && BulletEnd(g, j) == e
  {
    BulletStartComplete(g, i, j);
    SpanUnique(g, j, e - j, Plain);
  }

  lemma BulletStartComplete(g: JsString, i: nat, j: nat)
    requires BulletStart(g, i, j)
    ensures BulletAt(g, i) == Some(j)
  {
    var r := i + 2 + Span(g, i + 1, IsSpace);
    SpanCovers(g, i + 1, j, IsSpace);
    SpanRun(g, i + 1, IsSpace);
    forall j' | j < j' < r ensures !PlainAt(g, j') {
      if j' < |g| {
        assert SpacesBetween(g, i + 1, j');
      }
    }
    BulletAtIs(g, i, j);
  }

  /** The last `[^\n•]` unit in reach of the bullet is where the group starts. */
  lemma BulletAtIs(g: JsString, i: nat, j: nat)
    requires i < |g| && g[i] == BULLET
    requires i + 1 <= j < i + 2 + Span(g, i + 1, IsSpace) && PlainAt(g, j)
    requires forall j' :: j < j' < i + 2 + Span(g, i + 1, IsSpace) ==> !PlainAt(g, j')
    ensures BulletAt(g, i) == Some(j)
  {
    var ok := (j: nat) => PlainAt(g, j);
    var r := i + 2 + Span(g, i + 1, IsSpace);
    forall j' | j < j' < r ensures !ok(j') {
      assert !PlainAt(g, j');
    }
    LastUnique(ok, i + 1, r, j);
  }
}
