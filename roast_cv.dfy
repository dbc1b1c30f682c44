/** The `roast-cv` edge function: it validates the posted résumé text,
    picks a system prompt and a user message for the requested mode, calls
    the chat-completion gateway once, and turns the gateway's reply into the
    JSON response the browser receives.

    The handler is modelled as a function of the request, the configured
    API key and the gateway's reply. The gateway call itself is not made:
    the handler returns the request it would send (or none) beside its
    response, and the reply is an input. `JSON.parse` is the parameter
    `parse`, which yields `None` where the real parser throws, and
    `countThrows` tells which parsed values make the log line after the
    parse throw (see `StructuredReply`). */
module RoastCv {
  import opened Wrappers
  import opened JsText

  // ---------------------------------------------------------------------
  // Requests, modes and prompts
  // ---------------------------------------------------------------------

  /** One member of the posted JSON value, as destructuring sees it:
      absent (also when the value is not an object), `null`, a string, any
      other JSON value whose conversion to a string succeeds (a number, a
      boolean, an object, an array), or one whose conversion throws. The
      last is an object with its own `toString` member, or an array holding
      such an object at any depth: `JSON.parse` cannot produce a function,
      so that member is not callable, the inherited `valueOf` returns the
      object itself, and the conversion raises a TypeError. */
  datatype JsonMember = Missing | Null | Text(text: JsString) | NonString | Unprintable

  /** `cvText?.substring(0, 200)` in the debug log throws for a value that
      is neither nullish nor a string. */
  predicate LogThrows(cvText: JsonMember) {
    cvText.NonString? || cvText.Unprintable?
  }

  datatype RequestBody = RequestBody(cvText: JsonMember, mode: JsonMember)

  /** Only `OPTIONS` is told apart; every other method, POST or not, is
      handled as `Post`. Its body is `None` when it is not JSON or is
      `null`; any other non-object JSON body has no members, so every
      member of it is `Missing`. */
  datatype Request =
    | Preflight                        // an OPTIONS request
    | Post(body: Option<RequestBody>)  // any other method

  datatype Mode = Roast | Dossie | Rewrite

  /** The three system prompts. Their wording is instruction text for the
      language model and nothing in the code depends on it. */
  datatype SystemPrompt = RoastPrompt | DossiePrompt | RewritePrompt

  const REWRITE: JsString := [0x72, 0x65, 0x77, 0x72, 0x69, 0x74, 0x65]  // "rewrite"
  const DOSSIE: JsString := [0x64, 0x6F, 0x73, 0x73, 0x69, 0x65]         // "dossie"

  /** `mode = "roast"` when absent, then compared with `===`: only the
      exact strings "rewrite" and "dossie" select those modes; absence and
      every other value, string or not, select the roast. (A mode whose
      conversion to a string throws never reaches the comparison.) */
  function ModeOf(mode: JsonMember): (m: Mode)
    ensures m == Rewrite <==> mode == Text(REWRITE)
    ensures m == Dossie <==> mode == Text(DOSSIE)
    ensures m == Roast <==> mode != Text(REWRITE) && mode != Text(DOSSIE)
  {
    match mode
    case Text(t) => if t == REWRITE then Rewrite else if t == DOSSIE then Dossie else Roast
    case _ => Roast
  }

  /** Each mode has its own system prompt: the roast prompt serves only
      the roast, the dossier prompt only the dossier, the rewrite prompt
      only the rewrite. */
  function PromptFor(m: Mode): (p: SystemPrompt)
    ensures p == RoastPrompt <==> m == Roast
    ensures p == DossiePrompt <==> m == Dossie
    ensures p == RewritePrompt <==> m == Rewrite
  {
    match m
    case Rewrite => RewritePrompt
    case Dossie => DossiePrompt
    case Roast => RoastPrompt
  }

  /** The fixed sentence that opens the user message of each mode. */
  function TaskSentence(m: Mode): string {
    match m
    case Rewrite =>
      "Analise e reescreva este currículo em formato JSON estruturado. Encontre TODAS as experiências usando Date Anchors:"
    case Dossie => "Gere um dossiê (JSON) com erros reais encontrados neste currículo:"
    case Roast => "Analise este currículo e dê sua crítica honesta:"
  }

  /** A chat message, with the `content` string it carries on the wire. */
  datatype Message = SystemMessage(prompt: SystemPrompt) | UserMessage(content: JsString)

  /** The content of a user message: the `lead` sentence, a blank line,
      then `text`, and nothing else. */
  function Content(lead: string, text: JsString): (r: JsString)
    ensures EndsWith(r, text)
    ensures StartsWith(r, Lit(lead) + [NEWLINE, NEWLINE])
    ensures |r| == |lead| + 2 + |text|
  {
    var r := Lit(lead) + [NEWLINE, NEWLINE] + text;
    assert r[..|Lit(lead)| + 2] == Lit(lead) + [NEWLINE, NEWLINE];
    r
  }

  /** The body of the POST to the gateway. */
  datatype ChatRequest = ChatRequest(model: string, messages: seq<Message>)

  const GATEWAY_MODEL := "google/gemini-3-flash-preview"

  /** The gateway request: the fixed model, then exactly two messages, the
      mode's system prompt and the user message carrying the résumé text
      unchanged after the mode's task sentence. */
  function GatewayRequest(m: Mode, cvText: JsString): (r: ChatRequest)
    ensures r.model == GATEWAY_MODEL && |r.messages| == 2
    ensures r.messages[0] == SystemMessage(PromptFor(m))
    ensures r.messages[1] == UserMessage(Content(TaskSentence(m), cvText))
  {
    ChatRequest(GATEWAY_MODEL, [SystemMessage(PromptFor(m)), UserMessage(Content(TaskSentence(m), cvText))])
  }

  // ---------------------------------------------------------------------
  // The gateway's reply and the function's response
  // ---------------------------------------------------------------------

  /** The gateway's body. `NotJson` when `response.json()` throws, and
      also when the body is the JSON `null`: reading `data.choices` then
      throws, and the outer `catch` answers 500 with the exception.
      Otherwise what the JSON says at `choices[0].message.content`, `None`
      when a step of that optional-chained path is missing or null. */
  datatype UpstreamBody = NotJson | Completion(content: Option<JsString>)

  datatype UpstreamReply = UpstreamReply(status: int, body: UpstreamBody)

  predicate UpstreamOk(status: int) {
    200 <= status <= 299
  }

  datatype ResponseBody<J> =
    | NoBody                     // the preflight answer
    | Failure(error: string)     // {error: "..."} with one of the fixed messages
    | Exception                  // {error: <message of an exception the handler caught>}
    | RoastBody(roast: JsString)
    | DossieBody(dossie: J)
    | RewriteBody(rewrite: J)

  datatype Response<J> = Response(status: int, body: ResponseBody<J>)

  /** The response and the gateway request sent on the way, if any. */
  datatype Outcome<J> = Outcome(response: Response<J>, sent: Option<ChatRequest>)

  const CV_REQUIRED := "CV text is required. O texto do PDF não foi extraído corretamente."
  const KEY_MISSING := "API Key Missing - Configure a LOVABLE_API_KEY no ambiente."
  const RATE_LIMITED := "Muitos pedidos! Espera um pouquinho e tenta de novo. 🔥"
  const UNAVAILABLE := "Serviço temporariamente indisponível. Tente novamente mais tarde."
  const GATEWAY_FAILED := "Erro ao processar o CV. Tente novamente."
  const EMPTY_REPLY := "Resposta vazia da IA. Tente novamente."
  const PARSE_FAILED := "Erro ao processar resposta da IA. Tente novamente."

  /** The `cvText` values answered with 400: nullish, or a blank string. */
  predicate Rejected(cvText: JsonMember) {
    !LogThrows(cvText) && !ValidCvText(cvText)
  }

  /** The 400 check rejects a missing, falsy, non-string or blank text: it
      is valid when it is a string with at least one unit that is not white
      space. (A non-string never gets this far: logging its `substring`
      throws first.) */
  predicate ValidCvText(cvText: JsonMember): (b: bool)
    ensures b <==> cvText.Text? && !AllSpace(cvText.text)
  {
    if cvText.Text? then TrimEmpty(cvText.text); Trim(cvText.text) != []
    else false
  }

  // ---------------------------------------------------------------------
  // Code-fence stripping
  // ---------------------------------------------------------------------

  const FENCE: JsString := [BACKTICK, BACKTICK, BACKTICK]                   // "```"
  const JSON_FENCE: JsString := [BACKTICK, BACKTICK, BACKTICK, 0x6A, 0x73, 0x6F, 0x6E]  // "```json"

  /** An opening "```json" removed, if there is one. */
  function DropJsonTag(t: JsString): JsString {
    if StartsWith(t, JSON_FENCE) then t[7..] else t
  }

  /** An opening "```" removed, if there is one. */
  function DropOpenFence(t: JsString): JsString {
    if StartsWith(t, FENCE) then t[3..] else t
  }

  /** A closing "```" removed, if there is one. */
  function DropCloseFence(t: JsString): JsString {
    if EndsWith(t, FENCE) then t[..|t| - 3] else t
  }

  /** The text handed to `JSON.parse`: the trimmed reply without an
      opening "```json", then without an opening "```", then without a
      closing "```", trimmed again. */
  function StripCodeFence(content: JsString): (r: JsString)
    ensures Trimmed(r)
    ensures |r| <= |content|
  {
    Trim(DropCloseFence(DropOpenFence(DropJsonTag(Trim(content)))))
  }

  /** The successive reassignments of `jsonStr` in the handler. */
  method CleanJson(content: JsString) returns (jsonStr: JsString)
    ensures jsonStr == StripCodeFence(content)
    ensures Trimmed(jsonStr)
  {
    jsonStr := Trim(content);
    ghost var t := jsonStr;
    if StartsWith(jsonStr, JSON_FENCE) {
      jsonStr := jsonStr[7..];
    }
    assert jsonStr == DropJsonTag(t);
    t := jsonStr;
    if StartsWith(jsonStr, FENCE) {
      jsonStr := jsonStr[3..];
    }
    assert jsonStr == DropOpenFence(t);
    t := jsonStr;
    if EndsWith(jsonStr, FENCE) {
      jsonStr := jsonStr[..|jsonStr| - 3];
    }
    assert jsonStr == DropCloseFence(t);
    jsonStr := Trim(jsonStr);
  }

  /** Every string is its trim with whitespace around it. */
  lemma TrimDecompose(s: JsString) returns (x: JsString, y: JsString)
    ensures s == x + Trim(s) + y
    ensures AllSpace(x) && AllSpace(y)
  {
    var t := TrimStart(s);
    x := s[..|s| - |t|];
    y := t[|TrimEnd(t)|..];
    assert s == x + t;
    assert t == TrimEnd(t) + y;
  }

  /** Whitespace around a string does not change its trim. */
  lemma TrimPadded(a: JsString, b: JsString, c: JsString)
    requires AllSpace(a) && AllSpace(c)
    ensures Trim(a + b + c) == Trim(b)
  {
    var x, y := TrimDecompose(b);
    assert a + b + c == (a + x) + Trim(b) + (y + c);
    assert AllSpace(a + x) by {
      forall k | 0 <= k < |a + x| ensures IsSpace((a + x)[k]) {
        if k >= |a| { assert (a + x)[k] == x[k - |a|]; }
      }
    }
    assert AllSpace(y + c) by {
      forall k | 0 <= k < |y + c| ensures IsSpace((y + c)[k]) {
        if k >= |y| { assert (y + c)[k] == c[k - |y|]; }
      }
    }
    TrimSplit(a + x, Trim(b), y + c);
  }

  /** A string that starts and ends with a backtick is its own trim. */
  lemma FencedIsTrimmed(c: JsString)
    requires c != [] && c[0] == BACKTICK && c[|c| - 1] == BACKTICK
    ensures Trim(c) == c
  {
    TrimTrimmed(c);
  }

  /** "```json\n" + B + "\n```" parses as B trimmed, whatever B is. */
  lemma {:induction false} JsonFenceRemoved(b: JsString)
    ensures StripCodeFence(JSON_FENCE + [NEWLINE] + b + [NEWLINE] + FENCE) == Trim(b)
  {
    FenceParts(JSON_FENCE, b);
    JsonFenceStripped([NEWLINE] + b + [NEWLINE]);
    TrimPadded([NEWLINE], b, [NEWLINE]);
  }

  /** "```\n" + B + "\n```" parses as B trimmed, whatever B is. */
  lemma {:induction false} BareFenceRemoved(b: JsString)
    ensures StripCodeFence(FENCE + [NEWLINE] + b + [NEWLINE] + FENCE) == Trim(b)
  {
    FenceParts(FENCE, b);
    BareFenceStripped([NEWLINE] + b + [NEWLINE]);
    TrimPadded([NEWLINE], b, [NEWLINE]);
  }

  lemma JsonFenceStripped(mid: JsString)
    requires mid != [] && mid[0] == NEWLINE
    ensures StripCodeFence(JSON_FENCE + (mid + FENCE)) == Trim(mid)
  {
    var c := JSON_FENCE + (mid + FENCE);
    FencedIsTrimmed(c);
    JsonTagDropped(mid + FENCE);
    NoOpenFence(mid + FENCE);
    CloseFenceDropped(mid);
    StripChain(c, mid + FENCE, mid + FENCE, mid);
  }

  lemma BareFenceStripped(mid: JsString)
    requires mid != [] && mid[0] == NEWLINE
    ensures StripCodeFence(FENCE + (mid + FENCE)) == Trim(mid)
  {
    var c := FENCE + (mid + FENCE);
    FencedIsTrimmed(c);
    OtherTagNotJson([], mid + FENCE);
    assert [] + (mid + FENCE) == mid + FENCE;
    OpenFenceDropped(mid + FENCE);
    CloseFenceDropped(mid);
    StripChain(c, c, mid + FENCE, mid);
  }

  lemma FenceParts(p: JsString, b: JsString)
    ensures p + [NEWLINE] + b + [NEWLINE] + FENCE == p + (([NEWLINE] + b + [NEWLINE]) + FENCE)
  {
  }

  lemma JsonTagDropped(t: JsString)
    ensures DropJsonTag(JSON_FENCE + t) == t
  {
    assert (JSON_FENCE + t)[..7] == JSON_FENCE;
    assert (JSON_FENCE + t)[7..] == t;
  }

  lemma NoOpenFence(t: JsString)
    requires t != [] && t[0] == NEWLINE
    ensures DropOpenFence(t) == t
  {
    if |t| >= 3 {
      assert t[..3][0] == NEWLINE;
    }
  }

  /** A reply without fence markers at its ends is only trimmed. */
  lemma UnfencedKept(b: JsString)
    requires !StartsWith(Trim(b), FENCE) && !EndsWith(Trim(b), FENCE)
    ensures StripCodeFence(b) == Trim(b)
  {
    var t := Trim(b);
    JsonFenceOpensFence(t);
    TrimTrimmed(t);
  }

  lemma JsonFenceOpensFence(t: JsString)
    ensures StartsWith(t, JSON_FENCE) ==> StartsWith(t, FENCE)
  {
    if StartsWith(t, JSON_FENCE) {
      assert t[..3] == t[..7][..3];
    }
  }

  /** A language tag other than lower-case "json" stays in front of the
      text handed to the parser. */
  lemma {:induction false} OtherTagKept(tag: JsString, b: JsString)
    requires tag != [] && Trimmed(tag)
    requires !StartsWith(tag, [0x6A, 0x73, 0x6F, 0x6E])  // "json"
    ensures StartsWith(StripCodeFence(FENCE + tag + [NEWLINE] + b + [NEWLINE] + FENCE), tag)
  {
    var mid := [NEWLINE] + b + [NEWLINE];
    var t2 := tag + (mid + FENCE);
    var c := FENCE + t2;
    TaggedFenceParts(tag, b);
    FencedIsTrimmed(c);
    OtherTagNotJson(tag, mid + FENCE);
    OpenFenceDropped(t2);
    CloseFenceDropped(tag + mid);
    StripChain(c, c, t2, tag + mid);
    TrimKeepsPrefix(tag, mid);
  }

  lemma TaggedFenceParts(tag: JsString, b: JsString)
    ensures FENCE + tag + [NEWLINE] + b + [NEWLINE] + FENCE
         == FENCE + (tag + (([NEWLINE] + b + [NEWLINE]) + FENCE))
    ensures tag + (([NEWLINE] + b + [NEWLINE]) + FENCE) == (tag + ([NEWLINE] + b + [NEWLINE])) + FENCE
  {
  }

  /** StripCodeFence spelled out step by step. */
  lemma StripChain(c: JsString, t1: JsString, t2: JsString, t3: JsString)
    requires Trim(c) == c && DropJsonTag(c) == t1
    requires DropOpenFence(t1) == t2 && DropCloseFence(t2) == t3
    ensures StripCodeFence(c) == Trim(t3)
  {
  }

  lemma OpenFenceDropped(t: JsString)
    ensures DropOpenFence(FENCE + t) == t
  {
    assert (FENCE + t)[..3] == FENCE;
    assert (FENCE + t)[3..] == t;
  }

  lemma CloseFenceDropped(t: JsString)
    ensures DropCloseFence(t + FENCE) == t
  {
    var s := t + FENCE;
    assert s[|s| - 3..] == FENCE;
    assert s[..|s| - 3] == t;
  }

  /** "```" + a tag not starting with "json" + a line break does not
      start with "```json". */
  lemma OtherTagNotJson(tag: JsString, rest: JsString)
    requires !StartsWith(tag, [0x6A, 0x73, 0x6F, 0x6E])
    requires rest != [] && rest[0] == NEWLINE
    ensures DropJsonTag(FENCE + (tag + rest)) == FENCE + (tag + rest)
  {
    var c := FENCE + (tag + rest);
    if |c| >= 7 {
      if |tag| >= 4 {
        assert c[..7][3..] == tag[..4];
      } else {
        assert c[3 + |tag|] == NEWLINE;
      }
    }
  }

  /** Trimming keeps a trimmed, non-empty prefix in place. */
  lemma TrimKeepsPrefix(p: JsString, rest: JsString)
    requires p != [] && Trimmed(p)
    ensures StartsWith(Trim(p + rest), p)
  {
    var t := p + rest;
    assert t[0] == p[0] && t[|p| - 1] == p[|p| - 1];
    assert LeadingSpaces(t) == 0;
    var n := TrailingSpaces(t);
    assert n <= |t| - |p|;
    assert Trim(t) == t[..|t| - n];
    assert Trim(t)[..|p|] == p;
  }

  // ---------------------------------------------------------------------
  // The handler
  // ---------------------------------------------------------------------

  /** The response to a non-OK gateway status: the gateway's own body is
      never passed on. */
  function GatewayFailure<J>(status: int): (r: Response<J>)
    ensures r.status == (if status == 429 || status == 402 then status else 500)
    ensures r.body.Failure?
  {
    if status == 429 then Response(429, Failure(RATE_LIMITED))
    else if status == 402 then Response(402, Failure(UNAVAILABLE))
    else Response(500, Failure(GATEWAY_FAILED))
  }

  /** Everything after the gateway call. A structured answer is never a
      value whose log line throws (the JSON `null` among them). */
  function ReplyFor<J>(m: Mode, upstream: UpstreamReply, parse: JsString -> Option<J>, countThrows: (Mode, J) -> bool)
    : (r: Response<J>)
    ensures r.status == 200 || r.status == 402 || r.status == 429 || r.status == 500
    ensures r.status == 200 ==> r.body.RoastBody? || r.body.DossieBody? || r.body.RewriteBody?
    ensures r.status != 200 ==> r.body.Failure? || r.body.Exception?
    ensures r.body.RewriteBody? ==> m == Rewrite && !countThrows(Rewrite, r.body.rewrite)
    ensures r.body.DossieBody? ==> m == Dossie && !countThrows(Dossie, r.body.dossie)
  {
    if !UpstreamOk(upstream.status) then GatewayFailure(upstream.status)
    else match upstream.body
      case NotJson => Response(500, Exception)
      case Completion(content) =>
        if !Truthy(content) then Response(500, Failure(EMPTY_REPLY))
        else if m == Roast then Response(200, RoastBody(content.value))
        else StructuredReply(m, StripCodeFence(content.value), parse, countThrows)
  }

  /** The answer in the dossier and rewrite modes, from the stripped text.
      After the parse, and inside the same `try`, a log line writes
      `${parsed.workHistory?.length || 0}` (rewrite) or
      `${parsed.errors?.length || 0}` (dossier). `countThrows(m, v)` holds
      when that throws: `v` is `null` (reading its member throws), or that
      member's `length` is an object with its own `toString` member, or an
      array holding one, whose conversion to a string throws. Such a value
      is answered like text that does not parse. */
  function StructuredReply<J>(m: Mode, jsonStr: JsString, parse: JsString -> Option<J>, countThrows: (Mode, J) -> bool)
    : (r: Response<J>)
    requires m != Roast
    ensures parse(jsonStr).None? || countThrows(m, parse(jsonStr).value) <==> r == Response(500, Failure(PARSE_FAILED))
    ensures parse(jsonStr).Some? && !countThrows(m, parse(jsonStr).value) ==>
      r.status == 200 && r.body == (if m == Rewrite then RewriteBody(parse(jsonStr).value) else DossieBody(parse(jsonStr).value))
  {
    match parse(jsonStr)
    case None => Response(500, Failure(PARSE_FAILED))
    case Some(v) =>
      if countThrows(m, v) then Response(500, Failure(PARSE_FAILED))
      else Response(200, if m == Rewrite then RewriteBody(v) else DossieBody(v))
  }

  /** The whole request handler. The debug log reads
      `cvText?.substring(...)` before any check, which throws for a
      `cvText` that is neither nullish nor a string, and the log line after
      both checks puts `mode` in a template literal, which throws for a mode
      whose conversion to a string throws; the outer `catch` answers both
      with 500. */
  function HandleRequest<J>(req: Request, apiKey: Option<JsString>, upstream: UpstreamReply,
                            parse: JsString -> Option<J>, countThrows: (Mode, J) -> bool): (out: Outcome<J>)
    ensures var st := out.response.status; st == 200 || st == 400 || st == 402 || st == 429 || st == 500
    ensures out.sent.Some? <==> req.Post? && req.body.Some? && ValidCvText(req.body.value.cvText) && Truthy(apiKey)
                                && !req.body.value.mode.Unprintable?
    ensures req.Post? && out.response.status != 200 ==> out.response.body.Failure? || out.response.body.Exception?
    ensures out.response.status == 400 <==> req.Post? && req.body.Some? && Rejected(req.body.value.cvText)
  {
    match req
    case Preflight => Outcome(Response(200, NoBody), None)
    case Post(None) => Outcome(Response(500, Exception), None)
    case Post(Some(body)) =>
      if LogThrows(body.cvText) then Outcome(Response(500, Exception), None)
      else if !ValidCvText(body.cvText) then Outcome(Response(400, Failure(CV_REQUIRED)), None)
      else if !Truthy(apiKey) then Outcome(Response(500, Failure(KEY_MISSING)), None)
      else Forward(body.mode, body.cvText.text, upstream, parse, countThrows)
  }

  /** Everything after both checks: the log line that converts `mode` to
      a string, the gateway call and the answer made of its reply. */
  function Forward<J>(mode: JsonMember, cvText: JsString, upstream: UpstreamReply,
                      parse: JsString -> Option<J>, countThrows: (Mode, J) -> bool): (out: Outcome<J>)
    ensures out.sent.Some? <==> !mode.Unprintable?
    ensures var st := out.response.status; st == 200 || st == 402 || st == 429 || st == 500
    ensures out.response.status != 200 ==> out.response.body.Failure? || out.response.body.Exception?
  {
    if mode.Unprintable? then Outcome(Response(500, Exception), None)
    else
      var m := ModeOf(mode);
      Outcome(ReplyFor(m, upstream, parse, countThrows), Some(GatewayRequest(m, cvText)))
  }

  // ---------------------------------------------------------------------
  // Properties of the handler
  // ---------------------------------------------------------------------

  /** A missing, `null`, empty or blank `cvText` is answered with 400
      before the key is looked at and before any gateway call. */
  lemma BlankTextRejectedFirst<J>(body: RequestBody, apiKey: Option<JsString>, upstream: UpstreamReply,
                                  parse: JsString -> Option<J>, countThrows: (Mode, J) -> bool)
    requires body.cvText.Missing? || body.cvText.Null? || (body.cvText.Text? && Trim(body.cvText.text) == [])
    ensures HandleRequest(Post(Some(body)), apiKey, upstream, parse, countThrows)
         == Outcome(Response(400, Failure(CV_REQUIRED)), None)
  {
  }

  /** Any other kind of `cvText` (a number, a boolean, an object, an
      array) makes the debug log throw: 500, and nothing is sent. */
  lemma NonStringTextThrows<J>(body: RequestBody, apiKey: Option<JsString>, upstream: UpstreamReply,
                               parse: JsString -> Option<J>, countThrows: (Mode, J) -> bool)
    requires body.cvText.NonString? || body.cvText.Unprintable?
    ensures HandleRequest(Post(Some(body)), apiKey, upstream, parse, countThrows) == Outcome(Response(500, Exception), None)
  {
  }

  /** Valid text and a key, but a `mode` whose conversion to a string
      throws: the log line after the checks throws, the answer is 500 and
      the gateway is never called. */
  lemma UnprintableModeThrows<J>(body: RequestBody, apiKey: Option<JsString>, upstream: UpstreamReply,
                                 parse: JsString -> Option<J>, countThrows: (Mode, J) -> bool)
    requires ValidCvText(body.cvText) && Truthy(apiKey) && body.mode.Unprintable?
    ensures HandleRequest(Post(Some(body)), apiKey, upstream, parse, countThrows) == Outcome(Response(500, Exception), None)
  {
  }

  /** With valid text and no key the answer is 500 and nothing is sent. */
  lemma MissingKeyRejected<J>(body: RequestBody, apiKey: Option<JsString>, upstream: UpstreamReply,
                              parse: JsString -> Option<J>, countThrows: (Mode, J) -> bool)
    requires ValidCvText(body.cvText) && !Truthy(apiKey)
    ensures HandleRequest(Post(Some(body)), apiKey, upstream, parse, countThrows) == Outcome(Response(500, Failure(KEY_MISSING)), None)
  {
  }

  /** With valid text, a key and a printable mode, exactly one gateway
      request is sent: one system message with the mode's prompt, then one
      user message holding the task sentence, a blank line and the résumé
      text verbatim. */
  lemma GatewayRequestShape<J>(body: RequestBody, apiKey: Option<JsString>, upstream: UpstreamReply,
                               parse: JsString -> Option<J>, countThrows: (Mode, J) -> bool)
    requires ValidCvText(body.cvText) && Truthy(apiKey) && !body.mode.Unprintable?
    ensures var out := HandleRequest(Post(Some(body)), apiKey, upstream, parse, countThrows);
      && out.sent.Some?
      && |out.sent.value.messages| == 2
      && out.sent.value.messages[0] == SystemMessage(PromptFor(ModeOf(body.mode)))
      && out.sent.value.messages[1] == UserMessage(Content(TaskSentence(ModeOf(body.mode)), body.cvText.text))
      && out.response == ReplyFor(ModeOf(body.mode), upstream, parse, countThrows)
  {
  }

  /** Gateway status mapping: 429 and 402 are passed on, any other failure
      becomes a generic 500; the gateway's body plays no part. */
  lemma GatewayStatusMapping<J>(m: Mode, status: int, b1: UpstreamBody, b2: UpstreamBody,
                                parse: JsString -> Option<J>, countThrows: (Mode, J) -> bool)
    requires !UpstreamOk(status)
    ensures ReplyFor(m, UpstreamReply(status, b1), parse, countThrows) == ReplyFor(m, UpstreamReply(status, b2), parse, countThrows)
    ensures status == 429 ==> ReplyFor(m, UpstreamReply(status, b1), parse, countThrows) == Response(429, Failure(RATE_LIMITED))
    ensures status == 402 ==> ReplyFor(m, UpstreamReply(status, b1), parse, countThrows) == Response(402, Failure(UNAVAILABLE))
    ensures status != 429 && status != 402 ==>
      ReplyFor(m, UpstreamReply(status, b1), parse, countThrows) == Response(500, Failure(GATEWAY_FAILED))
  {
  }

  /** A successful call without content is answered with 500. */
  lemma EmptyContentRejected<J>(m: Mode, status: int, content: Option<JsString>, parse: JsString -> Option<J>, countThrows: (Mode, J) -> bool)
    requires UpstreamOk(status) && !Truthy(content)
    ensures ReplyFor(m, UpstreamReply(status, Completion(content)), parse, countThrows) == Response(500, Failure(EMPTY_REPLY))
  {
  }

  /** Roast mode passes the model's text through untouched under `roast`;
      the other modes answer with the parsed value, or with 500 when it
      does not parse or its log line throws, and never with a partial
      object. */
  lemma ResultWrapping<J>(m: Mode, status: int, c: JsString, parse: JsString -> Option<J>, countThrows: (Mode, J) -> bool)
    requires UpstreamOk(status) && c != []
    ensures var r := ReplyFor(m, UpstreamReply(status, Completion(Some(c))), parse, countThrows);
      && (m == Roast ==> r == Response(200, RoastBody(c)))
      && (m != Roast && (parse(StripCodeFence(c)).None? || countThrows(m, parse(StripCodeFence(c)).value)) ==>
            r == Response(500, Failure(PARSE_FAILED)))
      && (m == Rewrite && parse(StripCodeFence(c)).Some? && !countThrows(m, parse(StripCodeFence(c)).value) ==>
            r == Response(200, RewriteBody(parse(StripCodeFence(c)).value)))
      && (m == Dossie && parse(StripCodeFence(c)).Some? && !countThrows(m, parse(StripCodeFence(c)).value) ==>
            r == Response(200, DossieBody(parse(StripCodeFence(c)).value)))
  {
    if m != Roast {
      ReplyIsStructured(m, status, c, parse, countThrows);
    }
  }

  /** A structured reply wrapped in a "```json" fence is answered exactly
      as the same reply without the fence. */
  lemma {:induction false} FencedReplyAnsweredAlike<J>(m: Mode, status: int, b: JsString, parse: JsString -> Option<J>, countThrows: (Mode, J) -> bool)
    requires m != Roast && UpstreamOk(status) && b != []
    requires !StartsWith(Trim(b), FENCE) && !EndsWith(Trim(b), FENCE)
    ensures ReplyFor(m, UpstreamReply(status, Completion(Some(JSON_FENCE + [NEWLINE] + b + [NEWLINE] + FENCE))), parse, countThrows)
         == ReplyFor(m, UpstreamReply(status, Completion(Some(b))), parse, countThrows)
  {
    var c := JSON_FENCE + [NEWLINE] + b + [NEWLINE] + FENCE;
    JsonFenceRemoved(b);
    UnfencedKept(b);
    ReplyIsStructured(m, status, c, parse, countThrows);
    ReplyIsStructured(m, status, b, parse, countThrows);
  }

  /** Outside roast mode, a successful call with content is answered from
      the stripped text alone. */
  lemma ReplyIsStructured<J>(m: Mode, status: int, c: JsString, parse: JsString -> Option<J>, countThrows: (Mode, J) -> bool)
    requires m != Roast && UpstreamOk(status) && c != []
    ensures ReplyFor(m, UpstreamReply(status, Completion(Some(c))), parse, countThrows)
         == StructuredReply(m, StripCodeFence(c), parse, countThrows)
  {
  }
}
