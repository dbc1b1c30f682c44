/** The free-tier result card. `parseVerdict` reads three things out of the
    roast text with regular expressions: the score, the first line of the
    first-impression section and the first bullet of the reality-check
    section, each with a fixed default. Each is the result of the leftmost
    position where the pattern of FreemiumPatterns matches. */
module FreemiumResult {
  import opened Wrappers
  import opened JsText
  import opened Scan
  import opened FreemiumPatterns
  import opened FreemiumSearch

  /** The score `parseVerdict` returns: that of the first position where
      the pattern matches, else 5. */
  function ParseScore(s: JsString): (r: Decimal)
    ensures r == DEFAULT_SCORE
         || exists p: nat, a: nat, b: nat, c: nat :: ScoreMatch(s, p, a, b, c) && r == GroupValue(s, a, b, c)
  {
    var p := FirstScore(s);
    if p <= |s| then FirstScoreFound(s); ScoreAtSound(s, p); ScoreAt(s, p).value else DEFAULT_SCORE
  }

  /** The score is the number in the leftmost match. */
  lemma ScoreIsFirstMatch(s: JsString, p: nat, a: nat, b: nat, c: nat)
    requires ScoreMatch(s, p, a, b, c)
    requires forall q: nat, a': nat, b': nat, c': nat :: q < p ==> !ScoreMatch(s, q, a', b', c')
    ensures ParseScore(s) == GroupValue(s, a, b, c)
  {
    ScoreAtComplete(s, p, a, b, c);
    NoScoreBefore(s, p);
    FirstScoreUnique(s, p);
  }

  /** Where the score pattern does not match, its scanner fails. */
  lemma NoScoreBefore(s: JsString, p: nat)
    requires forall q: nat, a': nat, b': nat, c': nat :: q < p ==> !ScoreMatch(s, q, a', b', c')
    ensures forall q: nat :: q < p ==> ScoreAt(s, q).None?
  {
    forall q: nat | q < p ensures ScoreAt(s, q).None? {
      if ScoreAt(s, q).Some? {
        ScoreAtSound(s, q);
      }
    }
  }

  /** The score is not clamped to the scale: "Nota: 12/10" gives 12. */
  lemma ScoreNotClamped()
    ensures ParseScore(Lit("Nota: 12/10")) == Decimal(12, 0)
  {
    var s := Lit("Nota: 12/10");
    assert s[..5] == [0x4E, 0x6F, 0x74, 0x61, 0x3A];
    assert LiteralAt(s, 0, SCORE_LABEL);
    assert ScoreTail(s, 8, 8, 9);
    assert ScoreMatch(s, 0, 6, 8, 8);
    ScoreIsFirstMatch(s, 0, 6, 8, 8);
  }

  /** Without a match the score is 5. */
  lemma ScoreDefault(s: JsString)
    requires forall p: nat, a: nat, b: nat, c: nat :: !ScoreMatch(s, p, a, b, c)
    ensures ParseScore(s) == DEFAULT_SCORE
  {
    NoScoreBefore(s, |s| + 1);
    FirstScoreUnique(s, |s| + 1);
  }

  /** `r` is the trimmed group of some first-impression match in `s`. */
  ghost predicate IsImpressionGroup(s: JsString, r: JsString) {
    exists p: nat, h: nat, k: nat, e: nat ::
      ImpressionMatch(s, p, h, k, e) && k < e <= |s| && r == Trim(s[k + 1..e])
  }

  /** The first impression `parseVerdict` returns: the trimmed group of the
      first match, else the fixed sentence. */
  function ParseImpression(s: JsString): (r: JsString)
    ensures r == DEFAULT_IMPRESSION || IsImpressionGroup(s, r)
  {
    var p := FirstImpression(s);
    if p <= |s| then
      FirstImpressionFound(s);
      var k := ImpressionLine(s, p).value;
      ImpressionFound(s, p, k);
      Trim(s[k + 1..LineEnd(s, k)])
    else DEFAULT_IMPRESSION
  }

  /** A line the scanner finds is the group of a match. */
  lemma ImpressionFound(s: JsString, p: nat, k: nat)
    requires ImpressionLine(s, p) == Some(k)
    ensures k < LineEnd(s, k) <= |s|
    ensures IsImpressionGroup(s, Trim(s[k + 1..LineEnd(s, k)]))
  {
    var q := HeaderEnd(s, p, MEGAPHONE, IMPRESSION_HEADER).value;
    ImpressionLineSound(s, p, q, k);
  }

  /** Where the first-impression pattern does not match, its scanner fails. */
  lemma NoImpressionBefore(s: JsString, p: nat)
    requires forall q: nat, h': nat, k': nat, e': nat :: q < p ==> !ImpressionMatch(s, q, h', k', e')
    ensures forall q: nat :: q < p ==> ImpressionLine(s, q).None?
  {
    forall q: nat | q < p ensures ImpressionLine(s, q).None? {
      if ImpressionLine(s, q).Some? {
        ImpressionLineSound(s, q, HeaderEnd(s, q, MEGAPHONE, IMPRESSION_HEADER).value, ImpressionLine(s, q).value);
      }
    }
  }

  /** The first impression is the trimmed group of the leftmost match. */
  lemma ImpressionIsFirstMatch(s: JsString, p: nat, h: nat, k: nat, e: nat)
    requires ImpressionMatch(s, p, h, k, e)
    requires forall q: nat, h': nat, k': nat, e': nat :: q < p ==> !ImpressionMatch(s, q, h', k', e')
    ensures ParseImpression(s) == Trim(s[k + 1..e])
  {
    ImpressionLineComplete(s, p, h, k, e);
    NoImpressionBefore(s, p);
    FirstImpressionUnique(s, p);
  }

  /** Without a match the fixed sentence is used. */
  lemma ImpressionDefault(s: JsString)
    requires forall p: nat, h: nat, k: nat, e: nat :: !ImpressionMatch(s, p, h, k, e)
    ensures ParseImpression(s) == DEFAULT_IMPRESSION
  {
    NoImpressionBefore(s, |s| + 1);
    FirstImpressionUnique(s, |s| + 1);
  }

  /** A matched first impression is one line: no newline and none of the
      emoji halves the class refuses. */
  lemma ImpressionIsOneLine(s: JsString)
    requires exists p: nat, h: nat, k: nat, e: nat :: ImpressionMatch(s, p, h, k, e)
    ensures forall u :: u in ParseImpression(s) ==> Accepted(u)
  {
    var p0: nat, h: nat, k0: nat, e: nat :| ImpressionMatch(s, p0, h, k0, e);
    ImpressionLineComplete(s, p0, h, k0, e);
    FirstImpressionFound(s);
    var p := FirstImpression(s);
    assert p <= p0;
    var k := ImpressionLine(s, p).value;
    LineAccepted(s, k);
    TrimWithin(s[k + 1..LineEnd(s, k)]);
  }

  /** The critical error `parseVerdict` returns: the first bullet of the
      reality-check section of the first match, else the fixed sentence. */
  function ParseCriticalError(s: JsString): (r: JsString)
    ensures SectionText(s).None? ==> r == DEFAULT_CRITICAL_ERROR
    ensures r == DEFAULT_CRITICAL_ERROR
         || (SectionText(s).Some?
             && exists i: nat, j: nat, e: nat ::
                  BulletMatch(SectionText(s).value, i, j, e) && r == Trim(TrimStart(SectionText(s).value[i + 1..e])))
  {
    match SectionText(s)
    case Some(g) => CriticalErrorIn(g)
    case None => DEFAULT_CRITICAL_ERROR
  }

  /** The group of the first reality-check match (`realityCheckMatch[1]`). */
  function SectionText(s: JsString): (r: Option<JsString>)
    ensures r.Some? ==> exists p: nat, h: nat, k: nat, e: nat :: RealityMatch(s, p, h, k, e) && r.value == s[k + 1..e]
  {
    var p := FirstReality(s);
    if p <= |s| then
      FirstRealityFound(s);
      var k := RealityLine(s, p).value;
      RealityLineSound(s, p, HeaderEnd(s, p, GRIMACE, REALITY_HEADER).value, k);
      Some(s[k + 1..SectionEnd(s, k + 1)])
    else None
  }

  /** The first bullet of section text `g` without its mark and blanks
      (`errors[0].replace(/^•\s*\/, '').trim()`), else the fixed sentence. */
  function CriticalErrorIn(g: JsString): (r: JsString)
    ensures r == DEFAULT_CRITICAL_ERROR
         || exists i: nat, j: nat, e: nat :: BulletMatch(g, i, j, e) && r == Trim(TrimStart(g[i + 1..e]))
  {
    var i := FirstBullet(g);
    if i < |g| then
      FirstBulletFound(g);
      var j := BulletAt(g, i).value;
      BulletAtSound(g, i);
      Trim(TrimStart(g[i + 1..BulletEnd(g, j)]))
    else DEFAULT_CRITICAL_ERROR
  }

  /** Where the section pattern does not match, its scanner fails. */
  lemma NoRealityBefore(s: JsString, p: nat)
    requires forall q: nat, h': nat, k': nat, e': nat :: q < p ==> !RealityMatch(s, q, h', k', e')
    ensures forall q: nat :: q < p ==> RealityLine(s, q).None?
  {
    forall q: nat | q < p ensures RealityLine(s, q).None? {
      if RealityLine(s, q).Some? {
        RealityLineSound(s, q, HeaderEnd(s, q, GRIMACE, REALITY_HEADER).value, RealityLine(s, q).value);
      }
    }
  }

  /** The bullets are looked for in the section of the leftmost match,
      which holds no 📊: bullets after the marker are never read. */
  lemma SectionIsFirstMatch(s: JsString, p: nat, h: nat, k: nat, e: nat)
    requires RealityMatch(s, p, h, k, e)
    requires forall q: nat, h': nat, k': nat, e': nat :: q < p ==> !RealityMatch(s, q, h', k', e')
    ensures SectionText(s) == Some(s[k + 1..e])
    ensures ParseCriticalError(s) == CriticalErrorIn(s[k + 1..e])
    ensures forall t :: k + 1 <= t < e ==> !UnitsAt(s, t, CHART)
  {
    RealityLineComplete(s, p, h, k, e);
    NoRealityBefore(s, p);
    SectionOfFirst(s, p, k, e);
  }

  lemma SectionOfFirst(s: JsString, p: nat, k: nat, e: nat)
    requires p <= |s| && RealityLine(s, p) == Some(k) && SectionEnd(s, k + 1) == e
    requires forall q: nat :: q < p ==> RealityLine(s, q).None?
    ensures SectionText(s) == Some(s[k + 1..e])
  {
    FirstRealityUnique(s, p);
  }

  /** Without a section the fixed sentence is used. */
  lemma CriticalErrorNoSection(s: JsString)
    requires forall p: nat, h: nat, k: nat, e: nat :: !RealityMatch(s, p, h, k, e)
    ensures SectionText(s) == None
    ensures ParseCriticalError(s) == DEFAULT_CRITICAL_ERROR
  {
    NoRealityBefore(s, |s| + 1);
    FirstRealityUnique(s, |s| + 1);
  }

  /** Where the bullet pattern does not match, its scanner fails. */
  lemma NoBulletBefore(g: JsString, i: nat)
    requires forall i': nat, j': nat, e': nat :: i' < i ==> !BulletMatch(g, i', j', e')
    ensures forall i': nat :: i' < i ==> BulletAt(g, i').None?
  {
    forall i': nat | i' < i ensures BulletAt(g, i').None? {
      if BulletAt(g, i').Some? {
        BulletAtSound(g, i');
      }
    }
  }

  /** The critical error is the group of the leftmost bullet match, with
      the mark and the blanks around it removed. */
  lemma CriticalErrorIsFirstBullet(g: JsString, i: nat, j: nat, e: nat)
    requires BulletMatch(g, i, j, e)
    requires forall i': nat, j': nat, e': nat :: i' < i ==> !BulletMatch(g, i', j', e')
    ensures CriticalErrorIn(g) == Trim(TrimStart(g[i + 1..e]))
  {
    BulletAtComplete(g, i, j, e);
    NoBulletBefore(g, i);
    FirstBulletUnique(g, i);
  }

  /** A section without bullets gives the fixed sentence. */
  lemma CriticalErrorNoBullet(g: JsString)
    requires forall i: nat, j: nat, e: nat :: !BulletMatch(g, i, j, e)
    ensures CriticalErrorIn(g) == DEFAULT_CRITICAL_ERROR
  {
    NoBulletBefore(g, |g|);
    FirstBulletUnique(g, |g|);
  }

  /** What a bullet gives is one item: no newline and no further bullet. */
  lemma CriticalErrorIsOneItem(g: JsString)
    requires exists i: nat, j: nat, e: nat :: BulletMatch(g, i, j, e)
    ensures forall u :: u in CriticalErrorIn(g) ==> Plain(u)
  {
    var i0: nat, j0: nat, e0: nat :| BulletMatch(g, i0, j0, e0);
    BulletAtComplete(g, i0, j0, e0);
    FirstBulletFound(g);
    assert FirstBullet(g) <= i0 < |g|;
    FirstBulletItem(g);
  }

  lemma FirstBulletItem(g: JsString)
    requires FirstBullet(g) < |g|
    ensures forall u :: u in CriticalErrorIn(g) ==> Plain(u)
  {
    FirstBulletFound(g);
    var i := FirstBullet(g);
    var j := BulletAt(g, i).value;
    BulletAtSound(g, i);
    StrippedItem(g, i, j, BulletEnd(g, j));
  }

  /** Stripping the mark and the blanks leaves part of the group. */
  lemma StrippedItem(g: JsString, i: nat, j: nat, e: nat)
    requires BulletMatch(g, i, j, e)
    ensures forall u :: u in Trim(TrimStart(g[i + 1..e])) ==> Plain(u)
  {
    var x := g[i + 1..e];
    var m := j - (i + 1);
    forall t | 0 <= t < m ensures IsSpace(x[t]) {
      assert x[t] == g[i + 1 + t];
    }
    forall t | m <= t < |x| ensures Plain(x[t]) {
      assert x[t] == g[i + 1 + t];
    }
    SpacesThenPlain(x, m);
  }

  /** Blanks followed by `[^\n•]` units strip to `[^\n•]` units. */
  lemma SpacesThenPlain(x: JsString, m: nat)
    requires m <= |x|
    requires forall t :: 0 <= t < m ==> IsSpace(x[t])
    requires forall t :: m <= t < |x| ==> Plain(x[t])
    ensures forall u :: u in Trim(TrimStart(x)) ==> Plain(u)
  {
    var r := TrimStart(x);
    var n := |x| - |r|;
    assert n >= m;
    forall t | 0 <= t < |r| ensures Plain(r[t]) {
      assert r[t] == x[n + t];
    }
    TrimWithin(r);
    assert TrimStart(r) == r;
  }

  // ---------------------------------------------------------------------
  // The verdict and the colour of the score
  // ---------------------------------------------------------------------

  datatype Verdict = Verdict(score: Decimal, firstImpression: JsString, criticalError: JsString)

  /** `parseVerdict`: total, every field read independently with its own
      default. */
  function ParseVerdict(s: JsString): (v: Verdict)
    ensures v.score == ParseScore(s)
    ensures v.firstImpression == ParseImpression(s)
    ensures v.criticalError == ParseCriticalError(s)
  {
    Verdict(ParseScore(s), ParseImpression(s), ParseCriticalError(s))
  }

  datatype ScoreColor = Green | Amber | Destructive

  /** `d >= n`. */
  predicate AtLeast(d: Decimal, n: nat) {
    d.mantissa >= n * Pow10(d.scale)
  }

  /** `d <= d'` as rational numbers. */
  predicate NotAbove(d: Decimal, d': Decimal) {
    d.mantissa * Pow10(d'.scale) <= d'.mantissa * Pow10(d.scale)
  }

  /** `getScoreColor`. */
  function ColorOf(d: Decimal): (r: ScoreColor)
    ensures r == Green <==> NotAbove(Decimal(7, 0), d)
    ensures r == Amber <==> NotAbove(Decimal(5, 0), d) && !NotAbove(Decimal(7, 0), d)
    ensures r == Destructive <==> !NotAbove(Decimal(5, 0), d)
  {
    if AtLeast(d, 7) then Green else if AtLeast(d, 5) then Amber else Destructive
  }

  /** The colours in the order of the scores they stand for. */
  function Rank(c: ScoreColor): nat {
    match c
    case Destructive => 0
    case Amber => 1
    case Green => 2
  }

  /** The default score is shown in amber. */
  lemma DefaultScoreIsAmber()
    ensures ColorOf(DEFAULT_SCORE) == Amber
  {
  }

  /** A number at least `n` stays at least `n` when it grows. */
  lemma AtLeastGrows(d: Decimal, d': Decimal, n: nat)
    requires AtLeast(d, n) && NotAbove(d, d')
    ensures AtLeast(d', n)
  {
    var p, p' := Pow10(d.scale), Pow10(d'.scale);
    calc {
      n * p' * p;
      == n * p * p';
      <= { MulLe(n * p, d.mantissa, p'); }
      d.mantissa * p';
      <= d'.mantissa * p;
    }
    if d'.mantissa < n * p' {
      MulLt(d'.mantissa, n * p', p);
    }
  }

  lemma MulLe(a: nat, b: nat, c: nat)
    requires a <= b
    ensures a * c <= b * c
  {
  }

  lemma MulLt(a: nat, b: nat, c: nat)
    requires a < b && c > 0
    ensures a * c < b * c
  {
  }

  /** A higher score never gets a lower colour. */
  lemma ColorMonotone(d: Decimal, d': Decimal)
    requires NotAbove(d, d')
    ensures Rank(ColorOf(d)) <= Rank(ColorOf(d'))
  {
    if AtLeast(d, 7) { AtLeastGrows(d, d', 7); }
    if AtLeast(d, 5) { AtLeastGrows(d, d', 5); }
  }
}
