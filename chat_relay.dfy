/** The chat relay's `POST /chat` handler and the server's final error
    middleware (chatbot-backend/server.js), as a function from the parsed
    request, the environment and the completion API's outcome to the
    upstream calls made and the HTTP response sent. */
module ChatRelay {
  import opened Js

  const Model := "gpt-4o-mini"
  const MaxTokens := 500

  /** `units * 10^-scale`: the sampling temperature is only carried along. */
  datatype Decimal = Decimal(units: int, scale: nat)
  const Temperature := Decimal(7, 1)

  const DefaultSystemPrompt :=
    "You are a helpful website chatbot for SPIROLINK, a company specializing in broadband network infrastructure, including PON, FTTH, microwave networks, optical long-haul, and WiFi solutions. \n\n"
    + "Help users with questions about our services, technology, and solutions. Be professional, knowledgeable, and helpful. Keep responses concise and clear."

  const EmptyMessageError := "Message cannot be empty"
  const MissingKeyError := "API key not configured"
  const InvalidKeyError := "API key invalid. Please check your OpenAI API key in .env"
  const RateLimitError := "Rate limit exceeded. Please try again later."
  const InternalError := "Internal server error"
  /** What V8 says when `message.trim` is called on a non-string. */
  const TrimTypeError := "message.trim is not a function"

  /** The request body after `express.json()`: either the parser failed
      (malformed JSON, body too large) or the two fields the handler reads. */
  datatype Request = Unparsable | Body(message: Value, context: Value)

  /** `process.env.OPENAI_API_KEY`, read on every request. */
  datatype Env = Env(openaiApiKey: Option<string>)

  predicate KeyConfigured(env: Env) {
    env.openaiApiKey.Some? && env.openaiApiKey.value != ""
  }

  datatype Role = System | User
  datatype PromptMessage = PromptMessage(role: Role, content: Value)

  /** The argument of `openai.chat.completions.create`. */
  datatype CompletionRequest = CompletionRequest(
    model: string, messages: seq<PromptMessage>, maxTokens: nat, temperature: Decimal)

  /** An exception caught by the handler: its `status` (if any) and `message`. */
  datatype Thrown = Thrown(status: Option<int>, message: string)

  /** How the completion call settles: with `choices[0].message.content`
      (a string or `null`), or by throwing. */
  datatype UpstreamResult = Completed(content: Option<string>) | Raised(error: Thrown)

  datatype ResponseBody =
    | ErrorBody(error: string)
    | ReplyBody(success: bool, reply: Option<string>, model: string)

  datatype HttpResponse = HttpResponse(status: int, body: ResponseBody)

  /** The completion calls the handler made (in order) and its response. */
  datatype Exchange = Exchange(calls: seq<CompletionRequest>, response: HttpResponse)

  /** The first validation: `!message || !message.trim()`, for a string or
      a falsy message. */
  predicate BlankMessage(message: Value) {
    !Truthy(message) || (message.Str? && Trim(message.s) == "")
  }

  /** `context || DefaultSystemPrompt`. */
  function SystemPrompt(context: Value): (p: Value)
    ensures Truthy(context) ==> p == context
    ensures !Truthy(context) ==> p == Str(DefaultSystemPrompt)
  {
    if Truthy(context) then context else Str(DefaultSystemPrompt)
  }

  /** The one completion request a valid chat request produces. */
  function CompletionFor(message: Value, context: Value): CompletionRequest {
    CompletionRequest(
      Model,
      [PromptMessage(System, SystemPrompt(context)), PromptMessage(User, message)],
      MaxTokens, Temperature)
  }

  /** The `catch` block: 401 and 429 are passed on with their own advice,
      everything else becomes a 500 that embeds the error's message. */
  function MapError(e: Thrown): (r: HttpResponse)
    ensures r.body.ErrorBody?
    ensures r.status == 401 <==> e.status == Some(401)
    ensures r.status == 429 <==> e.status == Some(429)
    ensures r.status == 401 ==> r.body.error == InvalidKeyError
    ensures r.status == 429 ==> r.body.error == RateLimitError
    ensures r.status != 401 && r.status != 429 ==>
              r == HttpResponse(500, ErrorBody("Chatbot error: " + e.message))
  {
    if e.status == Some(401) then HttpResponse(401, ErrorBody(InvalidKeyError))
    else if e.status == Some(429) then HttpResponse(429, ErrorBody(RateLimitError))
    else HttpResponse(500, ErrorBody("Chatbot error: " + e.message))
  }

  /** The whole request: the error middleware for a body that did not
      parse, then the handler's checks in order, then one completion call. */
  function HandleChat(req: Request, env: Env, upstream: UpstreamResult): (x: Exchange)
    ensures |x.calls| <= 1
    ensures x.response.status in {200, 400, 401, 429, 500}
    ensures x.response.status == 400 <==> req.Body? && BlankMessage(req.message)
    ensures x.response.status == 400 ==> x == Exchange([], HttpResponse(400, ErrorBody(EmptyMessageError)))
    ensures req.Unparsable? ==> x == Exchange([], HttpResponse(500, ErrorBody(InternalError)))
    ensures |x.calls| == 1 <==>
              req.Body? && req.message.Str? && Trim(req.message.s) != "" && KeyConfigured(env)
    ensures x.response.status == 200 <==> |x.calls| == 1 && upstream.Completed?
    ensures x.response.body.ReplyBody? <==> x.response.status == 200
    ensures x.response.status == 200 ==>
              x.response.body == ReplyBody(true, upstream.content, Model)
  {
    match req
    case Unparsable =>
      Exchange([], HttpResponse(500, ErrorBody(InternalError)))
    case Body(message, context) =>
      if !Truthy(message) then
        Exchange([], HttpResponse(400, ErrorBody(EmptyMessageError)))
      else if !message.Str? then
        // `message.trim()` throws a TypeError inside the `try`.
        Exchange([], MapError(Thrown(None, TrimTypeError)))
      else if Trim(message.s) == "" then
        Exchange([], HttpResponse(400, ErrorBody(EmptyMessageError)))
      else if !KeyConfigured(env) then
        Exchange([], HttpResponse(500, ErrorBody(MissingKeyError)))
      else
        var call := CompletionFor(message, context);
        match upstream
        case Completed(content) =>
          Exchange([call], HttpResponse(200, ReplyBody(true, content, Model)))
        case Raised(e) =>
          Exchange([call], MapError(e))
  }

  /** A string message that is empty or all whitespace gets 400 and no
      completion call, whatever the key configuration: the message check
      runs before the key check. */
  lemma BlankMessageRejectedFirst(message: string, context: Value, env: Env, upstream: UpstreamResult)
    requires AllWhitespace(message)
    ensures HandleChat(Body(Str(message), context), env, upstream)
              == Exchange([], HttpResponse(400, ErrorBody(EmptyMessageError)))
  {
  }

  /** A truthy `message` that is not a string has no `trim` method: the
      call throws a TypeError inside the handler's `try`, and its `catch`
      answers 500 with the TypeError's text. No completion call is made. */
  lemma NonStringMessageIsTypeError(context: Value, env: Env, upstream: UpstreamResult)
    ensures HandleChat(Body(NonString(true), context), env, upstream)
              == Exchange([], HttpResponse(500, ErrorBody("Chatbot error: " + TrimTypeError)))
  {
  }

  /** A non-blank message with no key configured gets 500 "API key not
      configured" and no completion call. */
  lemma MissingKeyRejected(message: string, context: Value, env: Env, upstream: UpstreamResult)
    requires !AllWhitespace(message) && !KeyConfigured(env)
    ensures HandleChat(Body(Str(message), context), env, upstream)
              == Exchange([], HttpResponse(500, ErrorBody(MissingKeyError)))
  {
  }

  /** A valid request makes exactly one completion call: the fixed model,
      the system prompt then the raw (untrimmed) message, and the fixed
      limits. */
  lemma OneCallWithFixedShape(message: string, context: Value, env: Env, upstream: UpstreamResult)
    requires !AllWhitespace(message) && KeyConfigured(env)
    ensures var x := HandleChat(Body(Str(message), context), env, upstream);
      && |x.calls| == 1
      && x.calls[0].model == "gpt-4o-mini"
      && x.calls[0].messages == [PromptMessage(System, SystemPrompt(context)), PromptMessage(User, Str(message))]
      && x.calls[0].maxTokens == 500
      && x.calls[0].temperature == Decimal(7, 1)
  {
  }

  /** An empty-string context is falsy, so it selects the default prompt. */
  lemma EmptyContextSelectsDefault(message: string, env: Env, upstream: UpstreamResult)
    requires !AllWhitespace(message) && KeyConfigured(env)
    ensures HandleChat(Body(Str(message), Str("")), env, upstream).calls[0].messages[0]
              == PromptMessage(System, Str(DefaultSystemPrompt))
  {
  }

  /** When no completion call is made, the response does not depend on
      what the completion API would have done. */
  lemma NoCallNoDependence(req: Request, env: Env, u1: UpstreamResult, u2: UpstreamResult)
    requires HandleChat(req, env, u1).calls == []
    ensures HandleChat(req, env, u2) == HandleChat(req, env, u1)
  {
  }

  /** The completion's content is relayed unchanged on success. */
  lemma ReplyPassedThrough(message: string, context: Value, env: Env, content: Option<string>)
    requires !AllWhitespace(message) && KeyConfigured(env)
    ensures HandleChat(Body(Str(message), context), env, Completed(content)).response
              == HttpResponse(200, ReplyBody(true, content, "gpt-4o-mini"))
  {
  }

  /** Upstream failures after the call: 401 and 429 keep their status,
      everything else is a 500 carrying the upstream message. */
  lemma UpstreamErrorsClassified(message: string, context: Value, env: Env, e: Thrown)
    requires !AllWhitespace(message) && KeyConfigured(env)
    ensures var r := HandleChat(Body(Str(message), context), env, Raised(e)).response;
      && (e.status == Some(401) ==> r == HttpResponse(401, ErrorBody(InvalidKeyError)))
      && (e.status == Some(429) ==> r == HttpResponse(429, ErrorBody(RateLimitError)))
      && (e.status != Some(401) && e.status != Some(429) ==>
            r == HttpResponse(500, ErrorBody("Chatbot error: " + e.message)))
  {
  }
}
