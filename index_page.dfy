/** The landing page: it reads the `plan` URL parameter on load, runs the
    analysis when the uploader hands over a text, chooses what to show, and
    resets. URL parameters, the storage and the function call's outcome are
    inputs of the handlers. */
module IndexPage {
  import opened Wrappers
  import opened JsText
  import opened FunctionClient
  import opened LocalStorage
  import opened PricingCards

  /** The counter's starting value (a fixed number, not fetched). */
  const INITIAL_ANALYSIS_COUNT: nat := 47823

  const PREMIUM := Lit("premium")
  const DOSSIE := Lit("dossie")
  /** The key written out a second time in the restore code. */
  const LITERAL_PENDING_KEY := Lit("pending_roast")

  datatype PaidView = NoPaidView | DossieAccess | PremiumAccess

  /** `a ?? b` on URL parameters: `b` only when `a` is absent (an empty
      `a` is kept). */
  function Coalesce(a: Option<JsString>, b: Option<JsString>): (r: Option<JsString>)
    ensures a.Some? ==> r == a
    ensures a.None? ==> r == b
  {
    if a.Some? then a else b
  }

  /** The paid view a `plan` or `qa` value asks for, compared after
      lower-casing; `None` for any other value or none. */
  function RequestedView(param: Option<JsString>): (r: Option<PaidView>)
    ensures r == Some(PremiumAccess) <==> param.Some? && ToLower(param.value) == PREMIUM
    ensures r == Some(DossieAccess) <==> param.Some? && ToLower(param.value) == DOSSIE
    ensures r != Some(NoPaidView)
  {
    if param.None? then None
    else if ToLower(param.value) == PREMIUM then Some(PremiumAccess)
    else if ToLower(param.value) == DOSSIE then Some(DossieAccess)
    else None
  }

  /** Case plays no part: a value asks for the same view as its
      lower-cased spelling, so upper- and mixed-case spellings are
      recognised. */
  lemma RequestedViewIgnoresCase(p: JsString)
    ensures RequestedView(Some(ToLower(p))) == RequestedView(Some(p))
    ensures RequestedView(Some(Lit("PREMIUM"))) == Some(PremiumAccess)
    ensures RequestedView(Some(Lit("Dossie"))) == Some(DossieAccess)
    ensures RequestedView(Some(Lit("none"))) == None
  {
    LowerIdempotent(p);
    assert ToLower(Lit("PREMIUM")) == PREMIUM;
    assert ToLower(Lit("Dossie")) == DOSSIE;
    assert |ToLower(Lit("none"))| == 4;
  }

  /** The members `cvText` and `roastResult` of a parsed value, each `None`
      unless it is a string. */
  datatype ParsedFields = ParsedFields(cvText: Option<JsString>, roastResult: Option<JsString>)

  /** What the restore code gets out of the pending slot: the destructured
      `JSON.parse` of the slot's string when the slot holds a non-empty
      string, `None` when it holds none or "" (and, through `parse`, when
      parsing or destructuring throws). */
  function PendingFields(items: map<JsString, JsString>, parse: JsString -> Option<ParsedFields>)
    : (r: Option<ParsedFields>)
    ensures PENDING_ROAST_KEY !in items ==> r.None?
    ensures PENDING_ROAST_KEY in items && items[PENDING_ROAST_KEY] == [] ==> r.None?
    ensures PENDING_ROAST_KEY in items && items[PENDING_ROAST_KEY] != [] ==>
      r == parse(items[PENDING_ROAST_KEY])
  {
    if PENDING_ROAST_KEY in items && items[PENDING_ROAST_KEY] != [] then
      parse(items[PENDING_ROAST_KEY])
    else None
  }

  /** What is taken of `JSON.parse` (which is not part of this model): on
      a text of the saved record's shape it yields an object whose
      `cvText` and `roastResult` are the strings ReadPending reads. */
  ghost predicate ParsesPendingRecords(parse: JsString -> Option<ParsedFields>) {
    forall t :: ReadPending(t).Some? ==>
      parse(t) == Some(ParsedFields(Some(ReadPending(t).value.cvText), Some(ReadPending(t).value.roastResult)))
  }

  /** What a purchase saves is what the page reads back: both fields,
      unchanged, whatever the slot held before and whatever the texts
      hold, for a `JSON.parse` that reads the record's shape. */
  lemma RestoresSaved(items: map<JsString, JsString>, cvText: JsString, roastResult: JsString,
                      now: nat, parse: JsString -> Option<ParsedFields>)
    requires ParsesPendingRecords(parse)
    ensures PendingFields(items[PENDING_ROAST_KEY := PendingJson(PendingRoast(cvText, roastResult, now))], parse)
      == Some(ParsedFields(Some(cvText), Some(roastResult)))
  {
    PendingReadsBack(PendingRoast(cvText, roastResult, now));
  }

  /** A field of the slot replaces the current value only when it is a
      string. */
  function Restore(current: JsString, field: Option<JsString>): (r: JsString)
    ensures field.Some? ==> r == field.value
    ensures field.None? ==> r == current
  {
    if field.Some? then field.value else current
  }

  /** Where the result area is shown, the page shows one of three panels
      below the free result. */
  datatype PaidPanel =
    | DossiePanel(cvText: JsString)
    | PremiumPanel(cvText: JsString)
    | LockedWithPricing(cvText: JsString, roastResult: JsString)

  datatype ResultArea = ResultArea(verdict: JsString, panel: PaidPanel)

  /** The interaction area: the uploader, the result area, both hidden
      while a new analysis runs over an old verdict, never both shown. */
  datatype InteractionArea = InteractionArea(uploader: bool, result: Option<ResultArea>)

  class Page {
    var cvText: JsString
    var isAnalyzing: bool
    var verdictResult: Option<JsString>
    var analysisCount: nat
    var paidView: PaidView

    constructor()
      ensures cvText == [] && !isAnalyzing && verdictResult == None
      ensures analysisCount == INITIAL_ANALYSIS_COUNT && paidView == NoPaidView
    {
      cvText := [];
      isAnalyzing := false;
      verdictResult := None;
      analysisCount := INITIAL_ANALYSIS_COUNT;
      paidView := NoPaidView;
    }

    /** The effect run on load. `plan` and `planUpper` are the URL
        parameters `plan` and `PLAN`. Only a recognised plan does
        anything: it restores whichever fields of the slot are strings
        (an unreadable slot is skipped) and then opens the paid view. */
    method ApplyPlan(storage: Storage, plan: Option<JsString>, planUpper: Option<JsString>,
                     parse: JsString -> Option<ParsedFields>)
      modifies this
      ensures isAnalyzing == old(isAnalyzing) && analysisCount == old(analysisCount)
      ensures RequestedView(Coalesce(plan, planUpper)).None? ==>
        cvText == old(cvText) && verdictResult == old(verdictResult) && paidView == old(paidView)
      ensures RequestedView(Coalesce(plan, planUpper)).Some? ==>
        var fields := PendingFields(storage.items, parse);
        && paidView == RequestedView(Coalesce(plan, planUpper)).value
        && (fields.None? ==> cvText == old(cvText) && verdictResult == old(verdictResult))
        && (fields.Some? ==>
              cvText == Restore(old(cvText), fields.value.cvText)
              && (fields.value.roastResult.Some? ==> verdictResult == fields.value.roastResult)
              && (fields.value.roastResult.None? ==> verdictResult == old(verdictResult)))
    {
      var requested := RequestedView(Coalesce(plan, planUpper));
      if requested.None? {
        return;
      }
      var pending := storage.GetItem(PENDING_ROAST_KEY);
      if !Truthy(pending) {
        pending := storage.GetItem(LITERAL_PENDING_KEY);
      }
      if Truthy(pending) {
        var fields := parse(pending.value);
        if fields.Some? {
          if fields.value.cvText.Some? {
            cvText := fields.value.cvText.value;
          }
          if fields.value.roastResult.Some? {
            verdictResult := fields.value.roastResult;
          }
        }
      }
      paidView := requested.value;
    }

    /** `handleTextExtracted` up to the request: the text is kept, the
        analysis starts and the old verdict is cleared. */
    method BeginAnalysis(text: JsString)
      modifies this
      ensures cvText == text && isAnalyzing && verdictResult == None
      ensures analysisCount == old(analysisCount) && paidView == old(paidView)
    {
      cvText := text;
      isAnalyzing := true;
      verdictResult := None;
    }

    /** `handleTextExtracted` after the request. The analysis succeeds
        when the call returned a payload without an error; a null payload
        throws when its `roast` is read, which ends like a thrown call.
        Only a success sets the verdict (possibly to a missing `roast`),
        counts the analysis and applies the `qa` / `QA` parameter. */
    method FinishAnalysis(qa: Option<JsString>, qaUpper: Option<JsString>, outcome: InvokeOutcome)
      modifies this
      ensures !isAnalyzing && cvText == old(cvText)
      ensures Succeeded(outcome) ==>
        verdictResult == outcome.data.value.roast
        && analysisCount == old(analysisCount) + 1
        && paidView == RequestedView(Coalesce(qa, qaUpper)).GetOr(old(paidView))
      ensures !Succeeded(outcome) ==>
        verdictResult == old(verdictResult) && analysisCount == old(analysisCount) && paidView == old(paidView)
    {
      var requested := RequestedView(Coalesce(qa, qaUpper));
      match outcome {
        case FnError(_) =>
          isAnalyzing := false;
          return;
        case Threw =>
        case Returned(data) =>
          if data.Some? && Truthy(data.value.error) {
            isAnalyzing := false;
            return;
          }
          if data.Some? {
            verdictResult := data.value.roast;
            analysisCount := analysisCount + 1;
            if requested == Some(PremiumAccess) {
              paidView := PremiumAccess;
            } else if requested == Some(DossieAccess) {
              paidView := DossieAccess;
            }
          }
      }
      isAnalyzing := false;
    }

    /** The whole handler: whatever the outcome, the text is kept and the
        page is no longer analysing; a failure leaves no verdict. */
    method HandleTextExtracted(text: JsString, qa: Option<JsString>, qaUpper: Option<JsString>,
                               outcome: InvokeOutcome)
      modifies this
      ensures cvText == text && !isAnalyzing
      ensures Succeeded(outcome) ==>
        verdictResult == outcome.data.value.roast && analysisCount == old(analysisCount) + 1
        && paidView == RequestedView(Coalesce(qa, qaUpper)).GetOr(old(paidView))
      ensures !Succeeded(outcome) ==>
        verdictResult == None && analysisCount == old(analysisCount) && paidView == old(paidView)
    {
      BeginAnalysis(text);
      FinishAnalysis(qa, qaUpper, outcome);
    }

    /** The "analyse another CV" button: verdict, text and paid view are
        cleared and the pending slot is removed; nothing else in the
        storage changes. */
    method Reset(storage: Storage)
      modifies this, storage
      ensures verdictResult == None && cvText == [] && paidView == NoPaidView
      ensures isAnalyzing == old(isAnalyzing) && analysisCount == old(analysisCount)
      ensures storage.items == old(storage.items) - {PENDING_ROAST_KEY}
    {
      verdictResult := None;
      cvText := [];
      paidView := NoPaidView;
      storage.RemoveItem(PENDING_ROAST_KEY);
    }

    /** What the interaction area shows. */
    function View(): (r: InteractionArea)
      reads this
      ensures r.uploader <==> !Truthy(verdictResult)
      ensures r.result.Some? <==> Truthy(verdictResult) && !isAnalyzing
      ensures !(r.uploader && r.result.Some?)
      ensures r.result.Some? ==> r.result.value.verdict == verdictResult.value
      ensures r.result.Some? ==>
        && (r.result.value.panel.DossiePanel? <==> paidView == DossieAccess)
        && (r.result.value.panel.PremiumPanel? <==> paidView == PremiumAccess)
        && (r.result.value.panel.LockedWithPricing? <==> paidView == NoPaidView)
        && r.result.value.panel.cvText == cvText
    {
      var result :=
        if Truthy(verdictResult) && !isAnalyzing then
          Some(ResultArea(verdictResult.value,
            match paidView
            case DossieAccess => DossiePanel(cvText)
            case PremiumAccess => PremiumPanel(cvText)
            case NoPaidView => LockedWithPricing(cvText, verdictResult.value)))
        else None;
      InteractionArea(!Truthy(verdictResult), result)
    }
  }

  /** The call returned a payload whose `error` is missing or empty. */
  predicate Succeeded(outcome: InvokeOutcome): (b: bool)
    ensures b <==> outcome.Returned? && outcome.data.Some?
                   && (outcome.data.value.error.None? || outcome.data.value.error.value == [])
  {
    outcome.Returned? && outcome.data.Some? && !Truthy(outcome.data.value.error)
  }

  /** The purchase round trip: a paid tier bought from the locked result
      saves the analysis; the page loaded again with a recognised `plan`
      shows the same text and verdict in the paid view. */
  method PurchaseRoundTrip(storage: Storage, tierIndex: int, cvText: JsString, roastResult: JsString,
                           now: nat, plan: JsString, parse: JsString -> Option<ParsedFields>)
    returns (nav: Navigation, page: Page)
    requires PaymentUrl(tierIndex).Some? && RequestedView(Some(plan)).Some?
    requires ParsesPendingRecords(parse)
    modifies storage
    ensures nav == Redirect(PaymentUrl(tierIndex).value)
    ensures page.cvText == cvText && page.verdictResult == Some(roastResult)
    ensures page.paidView == RequestedView(Some(plan)).value
  {
    nav := HandlePurchase(storage, tierIndex, cvText, roastResult, now);
    RestoresSaved(old(storage.items), cvText, roastResult, now, parse);
    page := new Page();
    page.ApplyPlan(storage, Some(plan), None, parse);
  }
}
