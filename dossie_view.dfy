/** The paid dossier: the list of every error found in the résumé, fetched
    from the `roast-cv` function in `dossie` mode. The fetch outcome is
    classified into an error message or a payload; what is shown follows
    from the three state fields. */
module DossieView {
  import opened Wrappers
  import opened JsText
  import opened FunctionClient
  import opened PricingCards

  const NO_TEXT := Lit("Faça o upload do PDF para ver seus erros reais.")
  const CALL_FAILED := Lit("Erro ao gerar dossiê")
  const INVALID_RESPONSE := Lit("Resposta inválida do dossiê. Tente novamente.")
  const UNEXPECTED := Lit("Erro inesperado. Tente novamente.")

  const ONE_ERROR := Lit("Erro")
  const MANY_ERRORS := Lit("Erros")
  const TITLE_START := Lit("Dossiê Completo: ")
  const TITLE_END := Lit(" Encontrado(s) ") + [0xD83D, 0xDCC2]   // 📂

  /** The noun after the count: singular for exactly one error, plural
      for every other count, zero included. */
  function Noun(n: nat): (r: JsString)
    ensures r == ONE_ERROR <==> n == 1
    ensures n != 1 ==> r == MANY_ERRORS
  {
    if n == 1 then ONE_ERROR else assert |MANY_ERRORS| != |ONE_ERROR|; MANY_ERRORS
  }

  /** The header: the count, then the noun. */
  function Title(n: nat): (r: JsString)
    ensures StartsWith(r, TITLE_START)
    ensures EndsWith(r, [SPACE] + Noun(n) + TITLE_END)
    ensures |r| == |TITLE_START| + |DigitsText(n)| + 1 + |Noun(n)| + |TITLE_END|
  {
    TITLE_START + DigitsText(n) + ([SPACE] + Noun(n) + TITLE_END)
  }

  /** The count can be read back from the header. */
  lemma TitleCount(n: nat)
    ensures var r := Title(n);
      |TITLE_START| + |DigitsText(n)| <= |r|
      && AllDigits(r[|TITLE_START|..|TITLE_START| + |DigitsText(n)|])
      && DigitsValue(r[|TITLE_START|..|TITLE_START| + |DigitsText(n)|]) == n
      && |TITLE_START| + |DigitsText(n)| < |r| && r[|TITLE_START| + |DigitsText(n)|] == SPACE
  {
    Middle(TITLE_START, DigitsText(n), [SPACE] + Noun(n) + TITLE_END);
    DigitsRoundTrip(n);
  }

  /** The middle piece of three, and the first unit after it. */
  lemma Middle(a: JsString, d: JsString, t: JsString)
    requires t != []
    ensures (a + d + t)[|a|..|a| + |d|] == d
    ensures (a + d + t)[|a| + |d|] == t[0]
  {
  }

  /** A listed error with its number. */
  datatype Entry = Entry(number: nat, item: DossieError)

  /** The list, numbered from 1 in payload order. */
  function Numbered(es: seq<DossieError>): (r: seq<Entry>)
    ensures |r| == |es|
    ensures forall i :: 0 <= i < |es| ==> r[i] == Entry(i + 1, es[i])
  {
    if es == [] then [] else Numbered(es[..|es| - 1]) + [Entry(|es|, es[|es| - 1])]
  }

  /** The body under the header. */
  datatype Listing = NothingFound | Entries(entries: seq<Entry>)

  datatype Screen =
    | Spinner
    | ErrorCard(message: JsString)
    | Report(title: JsString, listing: Listing)

  class DossieViewState {
    var isLoading: bool
    var error: Option<JsString>
    var dossie: Option<DossiePayload>

    constructor()
      ensures isLoading && error == None && dossie == None
    {
      isLoading := true;
      error := None;
      dossie := None;
    }

    /** `dossie?.errors ?? []`. */
    function Errors(): (es: seq<DossieError>)
      reads this
      ensures dossie.Some? && dossie.value.errors.Some? ==> es == dossie.value.errors.value
      ensures dossie.None? || dossie.value.errors.None? ==> es == []
    {
      if dossie.Some? && dossie.value.errors.Some? then dossie.value.errors.value else []
    }

    /** The fetch has settled: not loading, and either an error to show or
        a payload that has an error list (possibly empty). */
    predicate Settled()
      reads this
    {
      !isLoading && (Truthy(error) || (dossie.Some? && dossie.value.errors.Some?))
    }

    /** What is rendered: loading first, then the error, then the report;
        the report lists the errors in order, or the "nothing found" card
        when there are none. */
    function View(): (s: Screen)
      reads this
      ensures s == Spinner <==> isLoading
      ensures s.ErrorCard? <==> !isLoading && Truthy(error)
      ensures s.ErrorCard? ==> Some(s.message) == error
      ensures s.Report? ==> s.title == Title(|Errors()|)
      ensures s.Report? ==> (s.listing == NothingFound <==> Errors() == [])
      ensures s.Report? && s.listing.Entries? ==> s.listing.entries == Numbered(Errors())
    {
      if isLoading then Spinner
      else if Truthy(error) then ErrorCard(error.value)
      else
        var es := Errors();
        Report(Title(|es|), if |es| > 0 then Entries(Numbered(es)) else NothingFound)
    }

    /** `fetchDossie`, given what the invocation returns. The result says
        whether the function was invoked. */
    method FetchDossie(cvText: JsString, outcome: InvokeOutcome) returns (invoked: bool)
      modifies this
      ensures invoked <==> Trim(cvText) != []
      ensures Settled()
      ensures !invoked ==> error == Some(NO_TEXT) && dossie == old(dossie)
      ensures invoked && outcome.FnError? ==>
        error == Some(OrElse(outcome.message, CALL_FAILED)) && dossie == old(dossie)
      ensures invoked && outcome.Threw? ==> error == Some(UNEXPECTED) && dossie == old(dossie)
      ensures invoked && outcome.Returned? ==>
        var data := outcome.data;
        if data.Some? && Truthy(data.value.error) then
          error == data.value.error && dossie == old(dossie)
        else if data.Some? && data.value.dossie.Some? && data.value.dossie.value.errors.Some? then
          error == None && dossie == data.value.dossie
        else
          error == Some(INVALID_RESPONSE) && dossie == old(dossie)
    {
      if Trim(cvText) == [] {
        error := Some(NO_TEXT);
        isLoading := false;
        return false;
      }
      invoked := true;
      isLoading := true;
      error := None;
      match outcome {
        case FnError(message) =>
          error := Some(OrElse(message, CALL_FAILED));
        case Threw =>
          error := Some(UNEXPECTED);
        case Returned(data) =>
          if data.Some? && Truthy(data.value.error) {
            error := data.value.error;
          } else if data.Some? && data.value.dossie.Some? && data.value.dossie.value.errors.Some? {
            dossie := data.value.dossie;
          } else {
            error := Some(INVALID_RESPONSE);
          }
      }
      isLoading := false;
    }
  }

  /** After a fetch the spinner is gone: the screen is the error card or
      the report, and an empty error list is a report, not an error. */
  lemma SettledView(v: DossieViewState)
    requires v.Settled()
    ensures v.View() != Spinner
    ensures !Truthy(v.error) ==> v.View().Report?
  {
  }

  /** What the upgrade button does. */
  datatype UpgradeAction = CallOnUpgrade | GoTo(url: JsString)

  /** `handleUpgrade`: the page's callback when it gave one, else the
      premium payment page. */
  function HandleUpgrade(hasOnUpgrade: bool): (a: UpgradeAction)
    ensures a == CallOnUpgrade <==> hasOnUpgrade
    ensures a.GoTo? ==> a.url == PREMIUM_URL
  {
    if hasOnUpgrade then CallOnUpgrade else GoTo(PREMIUM_URL)
  }
}
