/**
 * `POST /api/translate` (app/api/translate/route.ts): wraps Japanese `text`
 * in a fixed instruction to translate it into Simplified Chinese, keeping its
 * paragraphs and line breaks, and forwards that prompt like the analyze route.
 */
module Translate {
  import opened JsStrings
  import opened Web
  import opened Routing

  const MISSING_TEXT_MESSAGE := "缺少必要的文本内容"

  /** The template text before `${text}`. */
  const PROMPT_PREFIX := "请将以下日文文本翻译成简体中文。重要：请务必保持与原文完全相同的段落和换行结构。\n\n原文：\n"
  /** The template text after `${text}`, including its four spaces of indentation. */
  const PROMPT_SUFFIX := "\n\n    请仅返回翻译后的中文文本。"

  /** The request body after `await req.json()`; each field may be absent. */
  datatype TranslateBody = TranslateBody(
    text: Option<string>,
    model: Option<string>,
    apiUrl: Option<string>,
    stream: Option<bool>)

  /**
   * The template literal `translationPrompt`: the fixed prefix, then the text
   * verbatim (line breaks and all), then the fixed suffix; never the raw text.
   */
  function TranslationPrompt(text: string): (p: string)
    ensures |p| == |PROMPT_PREFIX| + |text| + |PROMPT_SUFFIX|
    ensures p[..|PROMPT_PREFIX|] == PROMPT_PREFIX
    ensures OccursAt(p, text, |PROMPT_PREFIX|)
    ensures p[|PROMPT_PREFIX| + |text|..] == PROMPT_SUFFIX
    ensures p != text
  {
    var p := PROMPT_PREFIX + text + PROMPT_SUFFIX;
    assert p[..|PROMPT_PREFIX|] == PROMPT_PREFIX;
    assert p[|PROMPT_PREFIX|..|PROMPT_PREFIX| + |text|] == text;
    assert p[|PROMPT_PREFIX| + |text|..] == PROMPT_SUFFIX;
    p
  }

  /** Recovers the embedded text from a prompt by cutting off the fixed prefix and suffix. */
  function EmbeddedText(p: string): string
    requires |p| >= |PROMPT_PREFIX| + |PROMPT_SUFFIX|
  {
    p[|PROMPT_PREFIX|..|p| - |PROMPT_SUFFIX|]
  }

  /** The handler, with the same inputs as the analyze route. */
  function Post(
    cfg: ServerConfig,
    authHeader: Option<string>,
    body: Attempt<TranslateBody>,
    upstream: ProxyRequest -> Attempt<ProxyResult>): (h: Handled)
    ensures h.sent.Some? ==> body.Returned? && h.sent.value.apiKey != ""
    ensures h.sent.Some? ==> |h.sent.value.payload.messages| == 1
                             && body.value.text.Some?
                             && h.sent.value.payload.messages[0].content
                                == TranslationPrompt(body.value.text.value)
    ensures h.sent.None? ==> h.response.status == 400 || h.response.status == 500
    ensures h.response.body.StreamBody? ==>
              h.sent.Some? && h.sent.value.payload.stream && h.response.headers == SSE_HEADERS
  {
    match body
    case Threw(t) => Handled(None, Caught(t))
    case Returned(b) =>
      var key := EffectiveApiKey(cfg, authHeader, b.apiUrl);
      var url := EffectiveApiUrl(cfg, b.apiUrl);
      if key == "" then
        Handled(None, ErrorResponse(NO_KEY_MESSAGE, 500))
      else if b.text.None? || b.text.value == "" then
        Handled(None, ErrorResponse(MISSING_TEXT_MESSAGE, 400))
      else
        var request := ProxyRequest(
          url, key, BuildPayload(b.model, TranslationPrompt(b.text.value), b.stream));
        var response :=
          match upstream(request)
          case Threw(t) => Caught(t)
          case Returned(proxied) => Relay(StreamRequested(b.stream), proxied);
        Handled(Some(request), response)
  }

  /**
   * Cutting the prefix and suffix off a prompt gives the text back, so the
   * template is injective: two different texts never yield the same prompt.
   */
  lemma TemplateRoundTrip(text: string, other: string)
    ensures EmbeddedText(TranslationPrompt(text)) == text
    ensures TranslationPrompt(text) == TranslationPrompt(other) ==> text == other
  {
    var p := TranslationPrompt(text);
    assert p[|PROMPT_PREFIX|..|PROMPT_PREFIX| + |text|] == text;
    if TranslationPrompt(other) == p {
      var q := TranslationPrompt(other);
      assert q[|PROMPT_PREFIX|..|PROMPT_PREFIX| + |other|] == other;
    }
  }

  /** A body that cannot be parsed ends in the `catch` clause, before any proxy call. */
  lemma MalformedBody(cfg: ServerConfig, authHeader: Option<string>, t: Thrown,
                      upstream: ProxyRequest -> Attempt<ProxyResult>)
    ensures var h := Post(cfg, authHeader, Threw(t), upstream);
            h.sent.None? && h.response.status == 500
            && ErrorMessageOf(h.response) ==
                 Some(if t.ErrorInstance? then t.message else SERVER_ERROR_MESSAGE)
  {
  }

  /** No usable key: 500 and no proxy call, checked before the text. */
  lemma MissingKey(cfg: ServerConfig, authHeader: Option<string>, b: TranslateBody,
                   upstream: ProxyRequest -> Attempt<ProxyResult>)
    requires UserApiKey(authHeader) == "" && DefaultApiKey(cfg, b.apiUrl) == ""
    ensures var h := Post(cfg, authHeader, Returned(b), upstream);
            h.sent.None? && h.response.status == 500
            && ErrorMessageOf(h.response) == Some(NO_KEY_MESSAGE)
  {
    assert EffectiveApiKey(cfg, authHeader, b.apiUrl) == "";
    assert Post(cfg, authHeader, Returned(b), upstream) == Handled(None, ErrorResponse(NO_KEY_MESSAGE, 500));
    ErrorResponseRoundTrip(NO_KEY_MESSAGE, 500);
  }

  /** A key but no text: 400 and no proxy call. */
  lemma MissingText(cfg: ServerConfig, authHeader: Option<string>, b: TranslateBody,
                    upstream: ProxyRequest -> Attempt<ProxyResult>)
    requires EffectiveApiKey(cfg, authHeader, b.apiUrl) != ""
    requires b.text.None? || b.text == Some("")
    ensures var h := Post(cfg, authHeader, Returned(b), upstream);
            h.sent.None? && h.response.status == 400
            && ErrorMessageOf(h.response) == Some(MISSING_TEXT_MESSAGE)
  {
  }

  /**
   * A key and a text: one proxy call at the effective URL with the effective
   * key, whose single user message is the wrapped text (never the raw text),
   * and the answer is the relayed proxy result.
   */
  lemma Forwards(cfg: ServerConfig, authHeader: Option<string>, b: TranslateBody,
                 upstream: ProxyRequest -> Attempt<ProxyResult>)
    requires EffectiveApiKey(cfg, authHeader, b.apiUrl) != ""
    requires b.text.Some? && b.text.value != ""
    ensures var h := Post(cfg, authHeader, Returned(b), upstream);
            && h.sent.Some?
            && h.sent.value.url == EffectiveApiUrl(cfg, b.apiUrl)
            && h.sent.value.apiKey == EffectiveApiKey(cfg, authHeader, b.apiUrl)
            && h.sent.value.payload.messages == [ChatMessage("user", TranslationPrompt(b.text.value))]
            && h.sent.value.payload.messages[0].content != b.text.value
            && h.sent.value.payload.reasoningEffort == "none"
            && h.sent.value.payload.model == (if b.model.Some? then b.model.value else MODEL_NAME)
            && (h.sent.value.payload.stream <==> b.stream == Some(true))
            && h.response == (match upstream(h.sent.value)
                              case Threw(t) => Caught(t)
                              case Returned(p) => Relay(b.stream == Some(true), p))
  {
    TemplateRoundTrip(b.text.value, b.text.value);
  }

  /**
   * A two-line Japanese text reaches the proxy inside the template with its
   * line break intact, and an upstream rate-limit failure comes back with its
   * status and message unchanged.
   */
  lemma RateLimitedTranslation(cfg: ServerConfig, upstream: ProxyRequest -> Attempt<ProxyResult>)
    requires cfg.apiKey != ""
    requires forall r :: upstream(r) == Returned(ProxyFailed(429, "rate limited"))
    ensures var h := Post(cfg, None, Returned(TranslateBody(Some("こんにちは\n世界"), None, None, None)), upstream);
            && h.sent.Some?
            && OccursAt(h.sent.value.payload.messages[0].content, "こんにちは\n世界", |PROMPT_PREFIX|)
            && h.response.status == 429
            && ErrorMessageOf(h.response) == Some("rate limited")
  {
    var text := "こんにちは\n世界";
    TemplateRoundTrip(text, text);
  }
}
