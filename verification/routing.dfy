/**
 * The request-decision logic that app/api/analyze/route.ts and
 * app/api/translate/route.ts each spell out line for line: the server
 * configuration read from the environment, the user key taken from the
 * `Authorization` header, the provider guess from the request's `apiUrl`,
 * the precedence of keys and URLs, the payload shape, and how a proxy
 * result or a thrown exception becomes the handler's response.
 */
module Routing {
  import opened JsStrings
  import opened Web
  import Models

  const BEARER := "Bearer "
  const GLM_MARKER := "bigmodel.cn"
  const MODEL_NAME := "gemini-3-flash-preview"
  const DEFAULT_API_URL := "https://generativelanguage.googleapis.com/v1beta/openai/chat/completions"
  const REASONING_EFFORT := "none"
  const NO_KEY_MESSAGE := "未提供API密钥，请在设置中配置API密钥或联系管理员配置服务器密钥"
  const STREAM_FAILED_MESSAGE := "流式响应创建失败"
  const SERVER_ERROR_MESSAGE := "服务器错误"
  const SSE_HEADERS := [
    ("Content-Type", "text/event-stream"),
    ("Cache-Control", "no-cache"),
    ("Connection", "keep-alive")]

  /** The three environment variables as `process.env` holds them (undefined or a string). */
  datatype Environment = Environment(apiKey: Option<string>, glmApiKey: Option<string>, apiUrl: Option<string>)

  /** `API_KEY`, `GLM_API_KEY` and `API_URL` as each route module computes them. */
  datatype ServerConfig = ServerConfig(apiKey: string, glmApiKey: string, apiUrl: string)

  function EnvOr(v: Option<string>, fallback: string): string {
    match v
    case None => fallback
    case Some(s) => Or(s, fallback)
  }

  /** `process.env.X || default` for each of the three variables. */
  function LoadConfig(env: Environment): (c: ServerConfig)
    ensures c.apiUrl != ""
    ensures env.apiUrl.Some? && env.apiUrl.value != "" ==> c.apiUrl == env.apiUrl.value
    ensures env.apiUrl.None? || env.apiUrl.value == "" ==> c.apiUrl == DEFAULT_API_URL
    ensures c.apiKey == (if env.apiKey.Some? then env.apiKey.value else "")
    ensures c.glmApiKey == (if env.glmApiKey.Some? then env.glmApiKey.value else "")
  {
    ServerConfig(EnvOr(env.apiKey, ""), EnvOr(env.glmApiKey, ""), EnvOr(env.apiUrl, DEFAULT_API_URL))
  }

  /**
   * `authHeader ? authHeader.replace('Bearer ', '') : ''`: empty without a
   * header, the header itself when it holds no "Bearer ", and otherwise the
   * header with its FIRST "Bearer " cut out wherever it stands.
   */
  function UserApiKey(authHeader: Option<string>): (k: string)
    ensures authHeader.None? ==> k == ""
    ensures authHeader.Some? && !Includes(authHeader.value, BEARER) ==> k == authHeader.value
    ensures authHeader.Some? && Includes(authHeader.value, BEARER) ==>
              var h := authHeader.value;
              var i := IndexOf(h, BEARER).value;
              |k| == |h| - |BEARER| && i <= |k| && k[..i] + BEARER + k[i..] == h
  {
    match authHeader
    case None => ""
    case Some(h) => if h == "" then "" else RemoveFirst(h, BEARER)
  }

  /** `apiUrl?.includes('bigmodel.cn')`: true exactly when the request's `apiUrl` contains the marker. */
  function IsGlm(apiUrl: Option<string>): (b: bool)
    ensures b <==> apiUrl.Some? && exists i: nat :: OccursAt(apiUrl.value, GLM_MARKER, i)
  {
    apiUrl.Some? && Includes(apiUrl.value, GLM_MARKER)
  }

  /**
   * `isGLM ? GLM_API_KEY : API_KEY`: the GLM key exactly when the request's
   * own `apiUrl` contains "bigmodel.cn"; an absent `apiUrl` always selects
   * `API_KEY`, whatever `API_URL` points at.
   */
  function DefaultApiKey(cfg: ServerConfig, apiUrl: Option<string>): (k: string)
    ensures apiUrl.None? ==> k == cfg.apiKey
    ensures apiUrl.Some? && (exists i: nat :: OccursAt(apiUrl.value, GLM_MARKER, i)) ==> k == cfg.glmApiKey
    ensures apiUrl.Some? && (forall i: nat :: !OccursAt(apiUrl.value, GLM_MARKER, i)) ==> k == cfg.apiKey
  {
    if IsGlm(apiUrl) then cfg.glmApiKey else cfg.apiKey
  }

  /**
   * `userApiKey || defaultApiKey`: a non-empty user key wins, otherwise the
   * provider's fallback key; the result is empty only when both are.
   */
  function EffectiveApiKey(cfg: ServerConfig, authHeader: Option<string>, apiUrl: Option<string>): (k: string)
    ensures UserApiKey(authHeader) != "" ==> k == UserApiKey(authHeader)
    ensures UserApiKey(authHeader) == "" ==> k == DefaultApiKey(cfg, apiUrl)
    ensures k == "" <==> UserApiKey(authHeader) == "" && DefaultApiKey(cfg, apiUrl) == ""
  {
    Or(UserApiKey(authHeader), DefaultApiKey(cfg, apiUrl))
  }

  /**
   * `apiUrl || API_URL`: a non-empty `apiUrl` as it is, otherwise `API_URL`;
   * never empty when `API_URL` is not, as `LoadConfig` guarantees.
   */
  function EffectiveApiUrl(cfg: ServerConfig, apiUrl: Option<string>): (u: string)
    ensures apiUrl.Some? && apiUrl.value != "" ==> u == apiUrl.value
    ensures apiUrl.None? || apiUrl.value == "" ==> u == cfg.apiUrl
    ensures cfg.apiUrl != "" ==> u != ""
  {
    match apiUrl
    case None => cfg.apiUrl
    case Some(u) => Or(u, cfg.apiUrl)
  }

  /** The body's `stream` after the destructuring default `stream = false`. */
  function StreamRequested(stream: Option<bool>): (b: bool)
    ensures stream.None? ==> !b
    ensures stream.Some? ==> b == stream.value
  {
    stream == Some(true)
  }

  /**
   * The payload `{model, reasoning_effort: "none", messages: [{role: "user",
   * content}], stream}`: exactly one user message holding `content`, `model`
   * defaulting to `MODEL_NAME` and `stream` to false.
   */
  function BuildPayload(model: Option<string>, content: string, stream: Option<bool>): (p: ChatPayload)
    ensures p.reasoningEffort == "none"
    ensures |p.messages| == 1 && p.messages[0] == ChatMessage("user", content)
    ensures model.Some? ==> p.model == model.value
    ensures model.None? ==> p.model == MODEL_NAME
    ensures p.stream <==> stream == Some(true)
  {
    ChatPayload(
      if model.Some? then model.value else MODEL_NAME,
      REASONING_EFFORT,
      [ChatMessage("user", content)],
      StreamRequested(stream))
  }

  /** The `catch` clause: status 500 with the error's own message, or the generic one. */
  function Caught(t: Thrown): (r: Response)
    ensures r.status == 500
    ensures t.ErrorInstance? ==> ErrorMessageOf(r) == Some(t.message)
    ensures t.OtherValue? ==> ErrorMessageOf(r) == Some(SERVER_ERROR_MESSAGE)
  {
    match t
    case ErrorInstance(m) => ErrorResponse(m, 500)
    case OtherValue => ErrorResponse(SERVER_ERROR_MESSAGE, 500)
  }

  /**
   * How a handler answers once the proxy has returned: a failure mirrors the
   * proxy's status and message; a streaming success passes the upstream body
   * through with the server-sent-event headers (500 if there is no body); a
   * buffered success returns the upstream JSON as it came, and an exception
   * from reading it falls to the `catch` clause.
   */
  function Relay(stream: bool, proxied: ProxyResult): (r: Response)
    ensures proxied.ProxyFailed? ==>
              r.status == proxied.status && ErrorMessageOf(r) == Some(proxied.message)
    ensures proxied.ProxyOk? && stream && proxied.response.body.None? ==>
              r.status == 500 && ErrorMessageOf(r) == Some(STREAM_FAILED_MESSAGE)
    ensures proxied.ProxyOk? && stream && proxied.response.body.Some? ==>
              r == Response(OK_STATUS, SSE_HEADERS, StreamBody(proxied.response.body.value))
    ensures proxied.ProxyOk? && !stream && proxied.response.json.Returned? ==>
              r.status == OK_STATUS && r.body == JsonBody(proxied.response.json.value)
    ensures proxied.ProxyOk? && !stream && proxied.response.json.Threw? ==>
              r == Caught(proxied.response.json.thrown)
    ensures r.body.StreamBody? <==> proxied.ProxyOk? && stream && proxied.response.body.Some?
  {
    match proxied
    case ProxyFailed(status, message) => ErrorResponse(message, status)
    case ProxyOk(response) =>
      if stream then
        match response.body
        case None => ErrorResponse(STREAM_FAILED_MESSAGE, 500)
        case Some(s) => Response(OK_STATUS, SSE_HEADERS, StreamBody(s))
      else
        match response.json
        case Returned(data) => JsonResponse(data, OK_STATUS)
        case Threw(t) => Caught(t)
  }

  /** A header that starts with "Bearer " gives the token after it. */
  lemma BearerPrefixGivesToken(token: string)
    ensures UserApiKey(Some(BEARER + token)) == token
  {
    RemoveFirstPrefix(BEARER, token);
  }

  /**
   * The user key is a substring cut, not a scheme parse: a "Bearer " in the
   * middle of the header is removed too, and the text before it is kept,
   * provided that text holds no 'B' that could start an earlier "Bearer ".
   */
  lemma UserKeyCutsInnerBearer(before: string, after: string)
    requires forall j :: 0 <= j < |before| ==> before[j] != BEARER[0]
    ensures UserApiKey(Some(before + BEARER + after)) == before + after
  {
    var h := before + BEARER + after;
    assert forall j :: 0 <= j < |before| ==> h[j] == before[j];
    NoOccurrenceBefore(h, BEARER, |before|);
    OccursBetween(before, BEARER, after);
    RemoveFirstAt(h, BEARER, |before|);
    assert h[..|before|] == before && h[|before| + |BEARER|..] == after;
  }

  /** For instance, "TokenBearer xyz" gives the key "Tokenxyz". */
  lemma InnerBearerExample()
    ensures UserApiKey(Some("TokenBearer xyz")) == "Tokenxyz"
  {
    var before, after := "Token", "xyz";
    assert before == ['T', 'o', 'k', 'e', 'n'];
    assert BEARER[0] == 'B';
    assert forall j :: 0 <= j < |before| ==> before[j] != BEARER[0];
    var h := before + BEARER + after;
    assert h == "TokenBearer xyz";
    assert before + after == "Tokenxyz";
    UserKeyCutsInnerBearer(before, after);
  }

  /**
   * The registry's GLM endpoint, sent as `apiUrl`, makes the routes fall
   * back to `GLM_API_KEY`.
   */
  lemma RegistryGlmUrlSelectsGlmKey(cfg: ServerConfig)
    ensures DefaultApiKey(cfg, Some(Models.GetModelApiUrl("glm-4-flash"))) == cfg.glmApiKey
  {
    Models.GlmEntryIsBigmodel();
  }
}
