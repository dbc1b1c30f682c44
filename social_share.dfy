/** The share helpers of the free result: the shortened first impression,
    the cleaned verdict of the WhatsApp message, and the image download
    with its file name. Opening windows, `encodeURIComponent` and the
    canvas rendering are not modelled; whether the rendering succeeds is
    an input. */
module SocialShare {
  import opened Wrappers
  import opened JsText
  import opened Scan
  import opened FreemiumPatterns

  const SHORT_LIMIT: nat := 80
  const CLEAN_LIMIT: nat := 100
  const ELLIPSIS := Lit("...")

  // ---------------------------------------------------------------------
  // The shortened first impression
  // ---------------------------------------------------------------------

  /** `shortImpression`: up to 80 code units are kept as they are; a
      longer text keeps its first 80 units followed by "...". The
      component computes this value but no share text uses it: the
      WhatsApp message quotes `cleanVerdict` and the LinkedIn message
      quotes no impression. */
  function ShortImpression(s: JsString): (r: JsString)
    ensures |r| <= SHORT_LIMIT + |ELLIPSIS|
    ensures |s| <= SHORT_LIMIT ==> r == s
    ensures |s| > SHORT_LIMIT ==>
      |r| == SHORT_LIMIT + |ELLIPSIS| && r[..SHORT_LIMIT] == s[..SHORT_LIMIT] && EndsWith(r, ELLIPSIS)
  {
    if |s| > SHORT_LIMIT then s[..SHORT_LIMIT] + ELLIPSIS else s
  }

  /** Shortening a shortened text changes nothing. */
  lemma ShortImpressionIdempotent(s: JsString)
    ensures ShortImpression(ShortImpression(s)) == ShortImpression(s)
  {
    var r := ShortImpression(s);
    if |s| > SHORT_LIMIT {
      assert r[..SHORT_LIMIT] == s[..SHORT_LIMIT];
      assert ShortImpression(r) == r[..SHORT_LIMIT] + ELLIPSIS;
      assert r == r[..SHORT_LIMIT] + r[SHORT_LIMIT..];
    }
  }

  // ---------------------------------------------------------------------
  // The cleaned verdict
  // ---------------------------------------------------------------------

  /** `replace(/"/g, '')`. */
  function RemoveQuotes(s: JsString): (r: JsString)
    ensures QUOTE !in r
    ensures |r| <= |s|
  {
    if s == [] then []
    else RemoveQuotes(s[..|s| - 1]) + Kept(s[|s| - 1])
  }

  /** What `replace(/"/g, '')` leaves of one unit. */
  function Kept(u: CodeUnit): JsString {
    if u == QUOTE then [] else [u]
  }

  /** Every unit other than the quote keeps its number of occurrences. */
  lemma {:induction false} RemoveQuotesKeepsOthers(s: JsString, u: CodeUnit)
    requires u != QUOTE
    ensures multiset(RemoveQuotes(s))[u] == multiset(s)[u]
  {
    if s != [] {
      var init, last := s[..|s| - 1], s[|s| - 1];
      RemoveQuotesKeepsOthers(init, u);
      assert s == init + [last];
      assert multiset(s)[u] == multiset(init)[u] + multiset([last])[u];
      assert multiset(Kept(last))[u] == multiset([last])[u];
      assert multiset(RemoveQuotes(s))[u] == multiset(RemoveQuotes(init))[u] + multiset(Kept(last))[u];
    }
  }

  /** Quotes are removed piecewise, so the other units keep their order. */
  lemma {:induction false} RemoveQuotesAppend(a: JsString, b: JsString)
    ensures RemoveQuotes(a + b) == RemoveQuotes(a) + RemoveQuotes(b)
    decreases |b|
  {
    if b == [] {
      assert a + b == a;
    } else {
      var b' := b[..|b| - 1];
      var k := Kept(b[|b| - 1]);
      RemoveQuotesAppend(a, b');
      RemoveQuotesLast(a, b);
      calc {
        RemoveQuotes(a + b);
        RemoveQuotes(a + b') + k;
        (RemoveQuotes(a) + RemoveQuotes(b')) + k;
        RemoveQuotes(a) + (RemoveQuotes(b') + k);
        RemoveQuotes(a) + RemoveQuotes(b);
      }
    }
  }

  /** The last unit of `a + b` is the last unit of `b`. */
  lemma RemoveQuotesLast(a: JsString, b: JsString)
    requires b != []
    ensures RemoveQuotes(a + b) == RemoveQuotes(a + b[..|b| - 1]) + Kept(b[|b| - 1])
  {
    assert (a + b)[..|a + b| - 1] == a + b[..|b| - 1];
  }

  /** A text without quotes is left as it is. */
  lemma {:induction false} RemoveQuotesPlain(s: JsString)
    requires QUOTE !in s
    ensures RemoveQuotes(s) == s
  {
    if s != [] {
      RemoveQuotesPlain(s[..|s| - 1]);
      assert s == s[..|s| - 1] + [s[|s| - 1]];
    }
  }

  /** `slice(0, n)`. */
  function Cut(q: JsString, n: nat): (p: JsString)
    ensures |p| <= n && |p| <= |q| && p == q[..|p|]
    ensures |q| <= n ==> p == q
  {
    if |q| <= n then q else q[..n]
  }

  /** `cleanVerdict`: quotes removed, cut to 100 units, trimmed. */
  function CleanVerdict(s: JsString): (r: JsString)
    ensures QUOTE !in r
    ensures |r| <= CLEAN_LIMIT
    ensures Trimmed(r)
  {
    var p := Cut(RemoveQuotes(s), CLEAN_LIMIT);
    TrimWithin(p);
    Trim(p)
  }

  /** What `trim()` keeps is the piece after the leading whitespace. */
  lemma TrimIsPiece(p: JsString)
    ensures LeadingSpaces(p) + |Trim(p)| <= |p|
    ensures Trim(p) == p[LeadingSpaces(p)..LeadingSpaces(p) + |Trim(p)|]
  {
    var i := LeadingSpaces(p);
    var t := TrimStart(p);
    assert t == p[i..];
  }

  /** Trimming the first `n` units of `q` keeps a piece of `q` within
      them that is preceded only by whitespace. */
  lemma TrimmedCutIsPiece(q: JsString, n: nat)
    ensures var r := Trim(Cut(q, n));
      var i := LeadingSpaces(Cut(q, n));
      && i + |r| <= n && i + |r| <= |q|
      && r == q[i..i + |r|]
      && AllSpace(q[..i])
  {
    var p := Cut(q, n);
    var i := LeadingSpaces(p);
    TrimIsPiece(p);
    assert forall k :: 0 <= k < |p| ==> p[k] == q[k];
    assert q[..i] == p[..i];
    assert q[i..i + |Trim(p)|] == p[i..i + |Trim(p)|];
  }

  /** The cleaned verdict is a piece of the quote-free impression that
      lies within its first 100 units and is preceded only by whitespace. */
  lemma CleanVerdictIsPiece(s: JsString)
    ensures var q := RemoveQuotes(s);
      var r := CleanVerdict(s);
      var i := LeadingSpaces(Cut(q, CLEAN_LIMIT));
      && i + |r| <= CLEAN_LIMIT && i + |r| <= |q|
      && r == q[i..i + |r|]
      && AllSpace(q[..i])
  {
    TrimmedCutIsPiece(RemoveQuotes(s), CLEAN_LIMIT);
  }

  /** A short impression without quotes or outer whitespace goes into the
      message unchanged. */
  lemma CleanVerdictKeepsClean(s: JsString)
    requires QUOTE !in s && |s| <= CLEAN_LIMIT && Trimmed(s)
    ensures CleanVerdict(s) == s
  {
    RemoveQuotesPlain(s);
    TrimTrimmed(s);
  }

  // ---------------------------------------------------------------------
  // The score as text
  // ---------------------------------------------------------------------

  /** Two decimals denote the same number. */
  predicate SameValue(x: Decimal, y: Decimal) {
    x.mantissa * Pow10(y.scale) == y.mantissa * Pow10(x.scale)
  }

  /** The decimal without trailing zeros in its fraction. */
  function Normal(d: Decimal): (r: Decimal)
    ensures r.scale <= d.scale
    ensures r.scale == 0 || r.mantissa % 10 != 0
    decreases d.scale
  {
    if d.scale > 0 && d.mantissa % 10 == 0 then Normal(Decimal(d.mantissa / 10, d.scale - 1)) else d
  }

  /** Dropping trailing zeros keeps the value. */
  lemma {:induction false} NormalSameValue(d: Decimal)
    ensures SameValue(d, Normal(d))
    decreases d.scale
  {
    if d.scale > 0 && d.mantissa % 10 == 0 {
      var e := Decimal(d.mantissa / 10, d.scale - 1);
      var r := Normal(e);
      NormalSameValue(e);
      assert d.mantissa == 10 * e.mantissa;
      assert Pow10(d.scale) == 10 * Pow10(e.scale);
      ScaleBoth(e.mantissa, Pow10(r.scale), r.mantissa, Pow10(e.scale));
    }
  }

  /** An equality of cross products survives multiplying one factor on
      each side by ten. */
  lemma ScaleBoth(x: nat, p: nat, y: nat, q: nat)
    requires x * p == y * q
    ensures (10 * x) * p == y * (10 * q)
  {
  }

  /** The `w` decimal digits of `v`, with leading zeros. */
  function PadDigits(v: nat, w: nat): (r: JsString)
    ensures |r| == w && AllDigits(r)
  {
    if w == 0 then [] else PadDigits(v / 10, w - 1) + [(v % 10 + 0x30) as CodeUnit]
  }

  lemma {:induction false} PadDigitsValue(v: nat, w: nat)
    requires v < Pow10(w)
    ensures DigitsValue(PadDigits(v, w)) == v
  {
    if w > 0 {
      assert v / 10 < Pow10(w - 1);
      PadDigitsValue(v / 10, w - 1);
      var r := PadDigits(v, w);
      assert r[..w - 1] == PadDigits(v / 10, w - 1);
    }
  }

  /** The last unit of a fraction is not a zero digit. */
  lemma LastFractionDigit(m: nat, s: nat)
    requires s > 0
    ensures Remainder(m, Pow10(s)) % 10 == m % 10
  {
    RemainderLastDigit(m, Pow10(s - 1));
  }

  /** Taking the remainder by a multiple of ten keeps the last digit. */
  lemma RemainderLastDigit(m: nat, k: nat)
    requires k >= 1
    ensures Remainder(m, 10 * k) % 10 == m % 10
  {
    var q, f := Quotient(m, 10 * k), Remainder(m, 10 * k);
    DivMod(m, 10 * k);
    TenTimes(q, k);
    LastDigitOf(k * q, f);
  }

  lemma TenTimes(q: nat, k: nat)
    ensures q * (10 * k) == 10 * (k * q)
  {
  }

  /** Adding a multiple of ten keeps the last digit. */
  lemma LastDigitOf(a: nat, f: nat)
    ensures (10 * a + f) % 10 == f % 10
  {
  }

  /** The digits of `n` before the point. */
  function WholePart(n: Decimal): nat {
    Quotient(n.mantissa, Pow10(n.scale))
  }

  /** The digits of `n` after the point, as a number below 10^scale. */
  function FractionPart(n: Decimal): (f: nat)
    ensures f < Pow10(n.scale)
  {
    Remainder(n.mantissa, Pow10(n.scale))
  }

  /** The two parts make up the mantissa again. */
  lemma PartsRebuild(n: Decimal)
    ensures WholePart(n) * Pow10(n.scale) + FractionPart(n) == n.mantissa
  {
    DivMod(n.mantissa, Pow10(n.scale));
  }

  function Quotient(m: nat, p: nat): nat
    requires p > 0
  {
    m / p
  }

  function Remainder(m: nat, p: nat): (r: nat)
    requires p > 0
    ensures r < p
  {
    m % p
  }

  /** The text of `n` digit by digit: the whole part, then a point and
      exactly `n.scale` fraction digits when the scale is not zero. */
  function Rendered(n: Decimal): (r: JsString)
    ensures r != []
    ensures n.scale == 0 ==> AllDigits(r)
    ensures n.scale > 0 && n.mantissa % 10 != 0 ==> r[|r| - 1] != 0x30
  {
    if n.scale == 0 then DigitsText(n.mantissa)
    else
      LastFractionDigit(n.mantissa, n.scale);
      DigitsText(WholePart(n)) + [DOT] + PadDigits(FractionPart(n), n.scale)
  }

  /** JavaScript's `String(x)` for the number a decimal denotes: the whole
      part, then a point and the fraction without trailing zeros when
      there is a fraction. */
  function NumberText(d: Decimal): (r: JsString)
    ensures r != []
    ensures Normal(d).scale == 0 ==> AllDigits(r)
    ensures Normal(d).scale > 0 ==> r[|r| - 1] != 0x30
  {
    Rendered(Normal(d))
  }

  /** The number the digits s[a..b] denote, read either way. */
  lemma {:induction false} DigitsAtValue(s: JsString, a: nat, b: nat)
    requires a <= b <= |s| && AllDigits(s[a..b])
    ensures DigitsAt(s, a, b) == DigitsValue(s[a..b])
    decreases b - a
  {
    if b > a {
      assert s[a..b][..b - a - 1] == s[a..b - 1];
      assert s[a..b][b - a - 1] == s[b - 1];
      DigitsAtValue(s, a, b - 1);
    }
  }

  /** The scanner's ends on a text of digits. */
  lemma ScanWhole(w: JsString)
    requires w != [] && AllDigits(w)
    ensures WholeEnd(w, 0) == |w| && GroupEnd(w, |w|) == |w|
    ensures NumberMatch(w, 0, |w|, |w|)
    ensures GroupValue(w, 0, |w|, |w|) == Decimal(DigitsValue(w), 0)
  {
    SpanUnique(w, 0, |w|, IsDigit);
    assert w[0..|w|] == w;
    DigitsAtValue(w, 0, |w|);
  }

  /** The scanner's ends on digits, a point and digits. */
  lemma ScanFractionEnds(w: JsString, f: JsString)
    requires w != [] && AllDigits(w) && f != [] && AllDigits(f)
    ensures var t := w + [DOT] + f;
      WholeEnd(t, 0) == |w| && GroupEnd(t, |w|) == |t| && NumberMatch(t, 0, |w|, |t|)
  {
    var t := w + [DOT] + f;
    assert forall k :: 0 <= k < |w| ==> t[k] == w[k];
    assert t[|w|] == DOT;
    SpanUnique(t, 0, |w|, IsDigit);
    assert forall k :: |w| + 1 <= k < |t| ==> t[k] == f[k - |w| - 1];
    SpanUnique(t, |w| + 1, |f|, IsDigit);
  }

  /** The value read from digits, a point and digits. */
  lemma ScanFractionValue(w: JsString, f: JsString)
    requires w != [] && AllDigits(w) && f != [] && AllDigits(f)
    requires NumberMatch(w + [DOT] + f, 0, |w|, |w + [DOT] + f|)
    ensures var t := w + [DOT] + f;
      GroupValue(t, 0, |w|, |t|) == Decimal(DigitsValue(w) * Pow10(|f|) + DigitsValue(f), |f|)
  {
    var t := w + [DOT] + f;
    assert t[0..|w|] == w;
    assert t[|w| + 1..|t|] == f;
    DigitsAtValue(t, 0, |w|);
    DigitsAtValue(t, |w| + 1, |t|);
  }

  /** Whole digits, a point and `w` padded fraction digits read back as
      the number they spell. */
  lemma DigitsDotDigits(whole: nat, frac: nat, w: nat)
    requires w > 0 && frac < Pow10(w)
    ensures var t := DigitsText(whole) + [DOT] + PadDigits(frac, w);
      && WholeEnd(t, 0) == |DigitsText(whole)| && GroupEnd(t, |DigitsText(whole)|) == |t|
      && NumberMatch(t, 0, |DigitsText(whole)|, |t|)
      && GroupValue(t, 0, |DigitsText(whole)|, |t|) == Decimal(whole * Pow10(w) + frac, w)
  {
    var a := DigitsText(whole);
    var f := PadDigits(frac, w);
    ScanFractionEnds(a, f);
    ScanFractionValue(a, f);
    DigitsRoundTrip(whole);
    PadDigitsValue(frac, w);
  }

  /** A rendered decimal with a fraction reads back as itself. */
  lemma FractionReadsBack(n: Decimal)
    requires n.scale > 0
    ensures var t := Rendered(n);
      var b := WholeEnd(t, 0);
      && b > 0 && GroupEnd(t, b) == |t|
      && NumberMatch(t, 0, b, |t|)
      && GroupValue(t, 0, b, |t|) == n
  {
    var whole, frac := WholePart(n), FractionPart(n);
    assert Rendered(n) == DigitsText(whole) + [DOT] + PadDigits(frac, n.scale);
    DigitsDotDigits(whole, frac, n.scale);
    PartsRebuild(n);
  }

  lemma DivMod(m: nat, p: nat)
    requires p > 0
    ensures Quotient(m, p) * p + Remainder(m, p) == m
  {
  }

  /** A rendered decimal reads back as itself. */
  lemma RenderedReadsBack(n: Decimal)
    ensures var t := Rendered(n);
      var b := WholeEnd(t, 0);
      && b > 0 && GroupEnd(t, b) == |t|
      && NumberMatch(t, 0, b, |t|)
      && GroupValue(t, 0, b, |t|) == n
  {
    if n.scale == 0 {
      ScanWhole(DigitsText(n.mantissa));
      DigitsRoundTrip(n.mantissa);
    } else {
      FractionReadsBack(n);
    }
  }

  /** The score reader reads a rendered score back: the number pattern
      takes the whole text and its value is the score's. */
  lemma NumberTextReadsBack(d: Decimal)
    ensures var t := NumberText(d);
      var b := WholeEnd(t, 0);
      && b > 0 && GroupEnd(t, b) == |t|
      && NumberMatch(t, 0, b, |t|)
      && SameValue(d, GroupValue(t, 0, b, |t|))
  {
    RenderedReadsBack(Normal(d));
    NormalSameValue(d);
  }

  // ---------------------------------------------------------------------
  // The image download
  // ---------------------------------------------------------------------

  const FILE_PREFIX := Lit("cv-sincero-nota-")
  const FILE_SUFFIX := Lit(".png")

  /** The download's file name for a score. */
  function FileName(score: Decimal): (r: JsString)
    ensures StartsWith(r, FILE_PREFIX) && EndsWith(r, FILE_SUFFIX)
    ensures |r| == |FILE_PREFIX| + |NumberText(score)| + |FILE_SUFFIX|
  {
    FILE_PREFIX + NumberText(score) + FILE_SUFFIX
  }

  /** The score written between prefix and suffix reads back as the score. */
  lemma FileNameReadsBack(score: Decimal)
    ensures var r := FileName(score);
      var t := r[|FILE_PREFIX|..|r| - |FILE_SUFFIX|];
      && t == NumberText(score)
      && NumberMatch(t, 0, WholeEnd(t, 0), |t|)
      && SameValue(score, GroupValue(t, 0, WholeEnd(t, 0), |t|))
  {
    var r := FileName(score);
    assert r[|FILE_PREFIX|..|r| - |FILE_SUFFIX|] == NumberText(score);
    NumberTextReadsBack(score);
  }

  datatype Toast = Toast(title: JsString, description: JsString)

  const NO_CARD_TOAST := Toast(Lit("Erro"), Lit("Não foi possível gerar a imagem."))
  const RENDERING_TOAST := Toast(Lit("Gerando imagem..."), Lit("Aguarde um instante."))
  const SAVED_TOAST := Toast(Lit("Imagem baixada! ") + [0xD83C, 0xDF89], Lit("Agora posta no Stories e marca a gente!"))
  const FAILED_TOAST := Toast(Lit("Erro ao gerar imagem"), Lit("Tente novamente."))

  /** What `handleDownloadImage` produces: the file it saves, if any, and
      the toasts it shows in order. */
  datatype Download = Download(file: Option<JsString>, toasts: seq<Toast>)

  /** Without the card nothing is rendered and only the error toast
      shows; otherwise a file is saved exactly when the rendering
      succeeds, between the progress toast and the outcome toast. */
  function DownloadImage(cardPresent: bool, rendered: bool, score: Decimal): (r: Download)
    ensures r.file.Some? <==> cardPresent && rendered
    ensures r.file.Some? ==> r.file.value == FileName(score)
    ensures !cardPresent ==> r.toasts == [NO_CARD_TOAST]
    ensures cardPresent ==> |r.toasts| == 2 && r.toasts[0] == RENDERING_TOAST
    ensures cardPresent ==> r.toasts[1] == if rendered then SAVED_TOAST else FAILED_TOAST
  {
    if !cardPresent then Download(None, [NO_CARD_TOAST])
    else if rendered then Download(Some(FileName(score)), [RENDERING_TOAST, SAVED_TOAST])
    else Download(None, [RENDERING_TOAST, FAILED_TOAST])
  }
}
