/**
 * `POST /api/analyze` (app/api/analyze/route.ts): forwards a free-form
 * `prompt` to the chat-completion endpoint chosen for the request.
 * The handler is a function of the `Authorization` header, the parsed body,
 * the server configuration and the proxy, which it consults at most once.
 */
module Analyze {
  import opened JsStrings
  import opened Web
  import opened Routing

  const MISSING_PROMPT_MESSAGE := "缺少必要的prompt参数"

  /** The request body after `await req.json()`; each field may be absent. */
  datatype AnalyzeBody = AnalyzeBody(
    prompt: Option<string>,
    model: Option<string>,
    apiUrl: Option<string>,
    stream: Option<bool>)

  /**
   * The handler. `body` is what `await req.json()` produced or threw;
   * `upstream` stands for `proxyOpenAICompatibleRequest`, which may itself throw.
   */
  function Post(
    cfg: ServerConfig,
    authHeader: Option<string>,
    body: Attempt<AnalyzeBody>,
    upstream: ProxyRequest -> Attempt<ProxyResult>): (h: Handled)
    ensures h.sent.Some? ==> body.Returned? && h.sent.value.apiKey != ""
    ensures h.sent.Some? ==> |h.sent.value.payload.messages| == 1
                             && h.sent.value.payload.messages[0].content != ""
    ensures h.sent.None? ==> h.response.status == 400 || h.response.status == 500
    ensures h.response.body.StreamBody? ==>
              h.sent.Some? && h.sent.value.payload.stream && h.response.headers == SSE_HEADERS
  {
    match body
    case Threw(t) => Handled(None, Caught(t))
    case Returned(b) =>
      var key := EffectiveApiKey(cfg, authHeader, b.apiUrl);
      if key == "" then
        Handled(None, ErrorResponse(NO_KEY_MESSAGE, 500))
      else if b.prompt.None? || b.prompt.value == "" then
        Handled(None, ErrorResponse(MISSING_PROMPT_MESSAGE, 400))
      else
        var request := ProxyRequest(
          EffectiveApiUrl(cfg, b.apiUrl), key, BuildPayload(b.model, b.prompt.value, b.stream));
        var response :=
          match upstream(request)
          case Threw(t) => Caught(t)
          case Returned(proxied) => Relay(StreamRequested(b.stream), proxied);
        Handled(Some(request), response)
  }

  /** A body that cannot be parsed ends in the `catch` clause, before any proxy call. */
  lemma MalformedBody(cfg: ServerConfig, authHeader: Option<string>, t: Thrown,
                      upstream: ProxyRequest -> Attempt<ProxyResult>)
    ensures var h := Post(cfg, authHeader, Threw(t), upstream);
            h.sent.None? && h.response.status == 500
            && ErrorMessageOf(h.response) ==
                 Some(if t.ErrorInstance? then t.message else SERVER_ERROR_MESSAGE)
  {
  }

  /**
   * With no usable key the answer is 500 with the "no API key configured"
   * message and no proxy call, whether or not a prompt was sent: the key
   * check comes first.
   */
  lemma MissingKey(cfg: ServerConfig, authHeader: Option<string>, b: AnalyzeBody,
                   upstream: ProxyRequest -> Attempt<ProxyResult>)
    requires UserApiKey(authHeader) == "" && DefaultApiKey(cfg, b.apiUrl) == ""
    ensures var h := Post(cfg, authHeader, Returned(b), upstream);
            h.sent.None? && h.response.status == 500
            && ErrorMessageOf(h.response) == Some(NO_KEY_MESSAGE)
  {
    assert EffectiveApiKey(cfg, authHeader, b.apiUrl) == "";
    assert Post(cfg, authHeader, Returned(b), upstream) == Handled(None, ErrorResponse(NO_KEY_MESSAGE, 500));
    ErrorResponseRoundTrip(NO_KEY_MESSAGE, 500);
  }

  /** With a key but a missing or empty prompt the answer is 400, and no proxy call. */
  lemma MissingPrompt(cfg: ServerConfig, authHeader: Option<string>, b: AnalyzeBody,
                      upstream: ProxyRequest -> Attempt<ProxyResult>)
    requires EffectiveApiKey(cfg, authHeader, b.apiUrl) != ""
    requires b.prompt.None? || b.prompt == Some("")
    ensures var h := Post(cfg, authHeader, Returned(b), upstream);
            h.sent.None? && h.response.status == 400
            && ErrorMessageOf(h.response) == Some(MISSING_PROMPT_MESSAGE)
  {
  }

  /**
   * With a key and a prompt the proxy is called exactly once, at the
   * effective URL with the effective key, and the payload carries the prompt
   * verbatim as its one user message; the answer is the relayed proxy result.
   */
  lemma Forwards(cfg: ServerConfig, authHeader: Option<string>, b: AnalyzeBody,
                 upstream: ProxyRequest -> Attempt<ProxyResult>)
    requires EffectiveApiKey(cfg, authHeader, b.apiUrl) != ""
    requires b.prompt.Some? && b.prompt.value != ""
    ensures var h := Post(cfg, authHeader, Returned(b), upstream);
            && h.sent.Some?
            && h.sent.value.url == EffectiveApiUrl(cfg, b.apiUrl)
            && h.sent.value.apiKey == EffectiveApiKey(cfg, authHeader, b.apiUrl)
            && h.sent.value.payload.messages == [ChatMessage("user", b.prompt.value)]
            && h.sent.value.payload.reasoningEffort == "none"
            && h.sent.value.payload.model == (if b.model.Some? then b.model.value else MODEL_NAME)
            && (h.sent.value.payload.stream <==> b.stream == Some(true))
            && h.response == (match upstream(h.sent.value)
                              case Threw(t) => Caught(t)
                              case Returned(p) => Relay(b.stream == Some(true), p))
  {
  }

  /**
   * A user key in the header is what reaches the proxy, even when the server
   * has its own keys configured.
   */
  lemma UserKeyReachesProxy(cfg: ServerConfig, token: string, b: AnalyzeBody,
                            upstream: ProxyRequest -> Attempt<ProxyResult>)
    requires token != ""
    requires b.prompt.Some? && b.prompt.value != ""
    ensures var h := Post(cfg, Some(BEARER + token), Returned(b), upstream);
            h.sent.Some? && h.sent.value.apiKey == token
  {
    BearerPrefixGivesToken(token);
  }

  /**
   * Without a user key, a request whose `apiUrl` names bigmodel.cn is sent
   * with `GLM_API_KEY`, and any other request (no `apiUrl` included) with `API_KEY`.
   */
  lemma ServerKeyByProvider(cfg: ServerConfig, b: AnalyzeBody,
                            upstream: ProxyRequest -> Attempt<ProxyResult>)
    requires b.prompt.Some? && b.prompt.value != ""
    ensures var h := Post(cfg, None, Returned(b), upstream);
            && (IsGlm(b.apiUrl) && cfg.glmApiKey != "" ==> h.sent.Some? && h.sent.value.apiKey == cfg.glmApiKey)
            && (!IsGlm(b.apiUrl) && cfg.apiKey != "" ==> h.sent.Some? && h.sent.value.apiKey == cfg.apiKey)
            && (b.apiUrl.None? && cfg.apiKey == "" ==> h.sent.None? && h.response.status == 500)
  {
  }

  /**
   * An `Authorization: Bearer ` header with an empty token reaches the
   * handler trimmed, as "Bearer". That holds no "Bearer ", so it is kept
   * whole and sent upstream as the key: the server keys are never used.
   */
  lemma EmptyBearerTokenIsKey(cfg: ServerConfig, b: AnalyzeBody,
                              upstream: ProxyRequest -> Attempt<ProxyResult>)
    requires b.prompt.Some? && b.prompt.value != ""
    ensures HeaderValue(BEARER) == "Bearer"
    ensures var h := Post(cfg, Some(HeaderValue(BEARER)), Returned(b), upstream);
            h.sent.Some? && h.sent.value.apiKey == "Bearer"
  {
    assert SkipLeading(BEARER, 0) == 0;
    assert SkipTrailing(BEARER, 0, |BEARER|) == 6;
    assert !Includes("Bearer", BEARER);
  }
}
