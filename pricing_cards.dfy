/** The three pricing tiers and the purchase handler. Buying a paid tier
    first saves the current analysis in the single pending slot of the
    browser storage and then sends the browser to the payment page; the
    page reads the slot back when it returns (IndexPage.ApplyPlan). */
module PricingCards {
  import opened Wrappers
  import opened JsText
  import opened LocalStorage
  import opened JsonText

  const DOSSIE_URL := Lit("https://mpago.la/1TngGUE")
  const PREMIUM_URL := Lit("https://mpago.la/2yyNN3t")
  const PENDING_ROAST_KEY := Lit("pending_roast")

  datatype ButtonVariant = Default | Secondary | Outline | Ghost

  datatype PricingTier = PricingTier(
    name: JsString,
    price: JsString,
    priceNote: Option<JsString>,
    features: seq<JsString>,
    buttonText: JsString,
    buttonVariant: ButtonVariant,
    disabled: bool,
    highlighted: bool,
    badge: Option<JsString>)

  const CROWN: JsString := [0xD83D, 0xDC51]   // 👑

  const PRICING_TIERS: seq<PricingTier> := [
    PricingTier(Lit("Só a Resenha"), Lit("Grátis"), None,
      [Lit("Nota da IA"), Lit("Piadinha Inicial"), Lit("1 Erro apontado")],
      Lit("Já tenho"), Ghost, true, false, None),
    PricingTier(Lit("Dossiê da Verdade"), Lit("R$ 9,90"), None,
      [Lit("Lista de TODOS os erros"), Lit("Explicação do porquê tá ruim"), Lit("Dicas de correção")],
      Lit("Ver Meus Erros"), Secondary, false, false, None),
    PricingTier(Lit("Primo Resolve"), Lit("R$ 19,90"), None,
      [Lit("Tudo do Dossiê"), Lit("Reescrita Profissional do Resumo"), Lit("Reescrita das Experiências"),
       Lit("Pronto para copiar e colar")],
      Lit("Quero meu CV Novo"), Default, false, true, Some(Lit("Escolha do Primo ") + CROWN))
  ]

  /** Three tiers; only the last is highlighted and only the first (the
      free one) is disabled. */
  lemma TiersShape()
    ensures |PRICING_TIERS| == 3
    ensures forall i :: 0 <= i < 3 ==> (PRICING_TIERS[i].highlighted <==> i == 2)
    ensures forall i :: 0 <= i < 3 ==> (PRICING_TIERS[i].disabled <==> i == 0)
  {
  }

  /** Where the browser goes after a handler. */
  datatype Navigation = Stay | Redirect(url: JsString)

  /** The payment page of a tier index, if it has one. */
  function PaymentUrl(tierIndex: int): (r: Option<JsString>)
    ensures r.Some? <==> tierIndex == 1 || tierIndex == 2
    ensures r == Some(DOSSIE_URL) <==> tierIndex == 1
    ensures r == Some(PREMIUM_URL) <==> tierIndex == 2
  {
    PaymentUrlsDiffer();
    if tierIndex == 1 then Some(DOSSIE_URL)
    else if tierIndex == 2 then Some(PREMIUM_URL)
    else None
  }

  /** The two payment pages are different pages. */
  lemma PaymentUrlsDiffer()
    ensures DOSSIE_URL != PREMIUM_URL
  {
    assert DOSSIE_URL[17] != PREMIUM_URL[17];
  }

  /** The record `savePendingRoast` saves. `timestamp` is `Date.now()`,
      milliseconds since 1970, which a clock set after 1970 never gives
      negative. */
  datatype PendingRoast = PendingRoast(cvText: JsString, roastResult: JsString, timestamp: nat)

  const CV_TEXT_MEMBER := Lit("{\"cvText\":")
  const ROAST_RESULT_MEMBER := Lit(",\"roastResult\":")
  const TIMESTAMP_MEMBER := Lit(",\"timestamp\":")
  const CLOSE_BRACE: CodeUnit := 0x7D

  /** `JSON.stringify(data)` of the record: its three members in the order
      they are written, without spaces. Never the empty string. */
  function PendingJson(data: PendingRoast): (r: JsString)
    ensures r != [] && r[0] == 0x7B && r[|r| - 1] == CLOSE_BRACE
  {
    CV_TEXT_MEMBER + Quote(data.cvText)
    + (ROAST_RESULT_MEMBER + Quote(data.roastResult)
       + (TIMESTAMP_MEMBER + DigitsText(data.timestamp) + [CLOSE_BRACE]))
  }

  /** A JSON text of the saved record's shape read back: the opening of
      each member, a string literal for the two texts, a number without
      leading zeros for the timestamp and the closing brace; `None` for any
      text of another shape. */
  function ReadPending(t: JsString): Option<PendingRoast>
  {
    match ReadMember(CV_TEXT_MEMBER, t)
    case None => None
    case Some((cvText, rest)) =>
      match ReadMember(ROAST_RESULT_MEMBER, rest)
      case None => None
      case Some((roastResult, rest')) =>
        match ReadTimestamp(rest')
        case None => None
        case Some(timestamp) => Some(PendingRoast(cvText, roastResult, timestamp))
  }

  /** A member opening `key` followed by a string literal: the string and
      the text after it. */
  function ReadMember(key: JsString, t: JsString): Option<(JsString, JsString)>
  {
    if StartsWith(t, key + [QUOTE]) then ReadString(t[|key| + 1..]) else None
  }

  /** The last member: its opening, a number without leading zeros and the
      closing brace, with nothing after it. */
  function ReadTimestamp(t: JsString): Option<nat>
  {
    if !StartsWith(t, TIMESTAMP_MEMBER) || |t| < |TIMESTAMP_MEMBER| + 2 || t[|t| - 1] != CLOSE_BRACE then None
    else
      var digits := t[|TIMESTAMP_MEMBER|..|t| - 1];
      if !AllDigits(digits) || (|digits| > 1 && digits[0] == 0x30) then None
      else Some(DigitsValue(digits))
  }

  /** A member written with `Quote` reads back as its string. */
  lemma MemberReadsBack(key: JsString, s: JsString, rest: JsString)
    ensures ReadMember(key, key + Quote(s) + rest) == Some((s, rest))
  {
    var t := key + Quote(s) + rest;
    assert t[..|key| + 1] == key + [QUOTE];
    assert t[|key| + 1..] == (Quote(s) + rest)[1..];
    QuoteReadsBack(s, rest);
  }

  /** The last member reads back as the number written. */
  lemma TimestampReadsBack(n: nat)
    ensures ReadTimestamp(TIMESTAMP_MEMBER + DigitsText(n) + [CLOSE_BRACE]) == Some(n)
  {
    var t := TIMESTAMP_MEMBER + DigitsText(n) + [CLOSE_BRACE];
    assert t[..|TIMESTAMP_MEMBER|] == TIMESTAMP_MEMBER;
    assert t[|TIMESTAMP_MEMBER|..|t| - 1] == DigitsText(n);
    DigitsRoundTrip(n);
  }

  /** What `savePendingRoast` writes reads back as the record it saved,
      member for member, whatever the texts hold (quotes, backslashes,
      control characters, lone surrogates). */
  lemma PendingReadsBack(data: PendingRoast)
    ensures ReadPending(PendingJson(data)) == Some(data)
  {
    var last := TIMESTAMP_MEMBER + DigitsText(data.timestamp) + [CLOSE_BRACE];
    var second := ROAST_RESULT_MEMBER + Quote(data.roastResult) + last;
    MemberReadsBack(CV_TEXT_MEMBER, data.cvText, second);
    MemberReadsBack(ROAST_RESULT_MEMBER, data.roastResult, last);
    TimestampReadsBack(data.timestamp);
  }

  /** `savePendingRoast`: the slot holds the serialised record, whatever it
      held before; no other key changes. `now` stands for `Date.now()`. */
  method SavePendingRoast(storage: Storage, cvText: JsString, roastResult: JsString, now: nat)
    modifies storage
    ensures storage.items == old(storage.items)[PENDING_ROAST_KEY := PendingJson(PendingRoast(cvText, roastResult, now))]
  {
    storage.SetItem(PENDING_ROAST_KEY, PendingJson(PendingRoast(cvText, roastResult, now)));
  }

  /** `handlePurchase`: a paid tier saves and then redirects, so when the
      browser leaves the slot already holds the analysis; any other index
      does nothing. `now` stands for `Date.now()`. */
  method HandlePurchase(storage: Storage, tierIndex: int, cvText: JsString, roastResult: JsString, now: nat)
    returns (nav: Navigation)
    modifies storage
    ensures PaymentUrl(tierIndex).None? ==> nav == Stay && storage.items == old(storage.items)
    ensures PaymentUrl(tierIndex).Some? ==>
      nav == Redirect(PaymentUrl(tierIndex).value)
      && storage.items == old(storage.items)[PENDING_ROAST_KEY := PendingJson(PendingRoast(cvText, roastResult, now))]
  {
    if tierIndex == 1 {
      SavePendingRoast(storage, cvText, roastResult, now);
      nav := Redirect(DOSSIE_URL);
    } else if tierIndex == 2 {
      SavePendingRoast(storage, cvText, roastResult, now);
      nav := Redirect(PREMIUM_URL);
    } else {
      nav := Stay;
    }
  }

  /** The button of tier `index`: a disabled tier does not call the
      handler, so the free tier neither saves nor redirects. */
  method ClickTier(storage: Storage, index: nat, cvText: JsString, roastResult: JsString, now: nat)
    returns (nav: Navigation)
    requires index < |PRICING_TIERS|
    modifies storage
    ensures index == 0 ==> nav == Stay && storage.items == old(storage.items)
    ensures index != 0 ==>
      nav == Redirect(PaymentUrl(index).value)
      && storage.items == old(storage.items)[PENDING_ROAST_KEY := PendingJson(PendingRoast(cvText, roastResult, now))]
  {
    if !PRICING_TIERS[index].disabled {
      nav := HandlePurchase(storage, index, cvText, roastResult, now);
    } else {
      nav := Stay;
    }
  }
}
