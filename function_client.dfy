/** What the browser gets back from invoking the `roast-cv` function. The
    call itself is not modelled: its outcome is an input of each handler
    that makes it. */
module FunctionClient {
  import opened Wrappers
  import opened JsText
  import opened CvTypes

  datatype DossieError = DossieError(error: JsString, whyBad: JsString, howToFix: JsString)

  /** `data.dossie`; `errors` is `None` when the member is missing. */
  datatype DossiePayload = DossiePayload(errors: Option<seq<DossieError>>)

  /** The members of `data` the pages read. `error` is kept only when it is
      a string; the others are `None` when missing or null. */
  datatype Payload = Payload(
    error: Option<JsString>,
    roast: Option<JsString>,
    rewrite: Option<RewrittenCv>,
    dossie: Option<DossiePayload>)

  datatype InvokeOutcome =
    | FnError(message: Option<JsString>)  // `error` set by the client library
    | Returned(data: Option<Payload>)     // no `error`; `data` may be null
    | Threw                               // the awaited call rejected
}
