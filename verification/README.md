# japanese-analyzer request gateway, modelled in Dafny

The application's server side is two Next.js route handlers, `POST /api/analyze`
and `POST /api/translate`, and a static model registry. Each handler reads
an optional `Authorization` header and a JSON body. It resolves an API key and
an endpoint URL by simple precedence rules, and builds an OpenAI-compatible
chat-completion payload. The payload goes to a shared proxy function. The
proxy's outcome is then relayed to the caller: a mirrored error, a
server-sent-event stream, or the upstream JSON as it came. The translate
handler first wraps the Japanese text in a fixed Simplified-Chinese
translation instruction.

The model renders each handler as a pure function `Post(cfg, authHeader, body, upstream)`:

- `cfg` holds the three server constants `API_KEY`, `GLM_API_KEY` and `API_URL`
  (`Routing.LoadConfig` computes them from the environment as each route module does).
- `body` is what `await req.json()` produced, or the value it threw. A body that
  parses but makes the destructuring throw (a JSON `null` gives a `TypeError`)
  is also a `Threw` value.
- `upstream` is the proxy function: a total function from the outbound
  request to its result (which may itself be a throw).
- The result `Handled(sent, response)` records the one proxy call the handler
  made (`None` when it made none) and the response it returned.

Modules:

- `JsStrings` holds the JavaScript string primitives the handlers use:
  `indexOf`/`includes`, `replace` of a first occurrence by the empty string
  (the only form the handlers use), and `||` on strings.
- `Web` holds JSON values, thrown values, the proxy's request and result,
  `NextResponse` values, and the whitespace trimming that `req.headers.get`
  applies to a header value.
- `Routing` holds the logic both route files repeat line for line: key and URL
  resolution, payload construction, relaying the proxy result, and the `catch`
  clause. Its rows cite app/api/analyze/route.ts. The same code stands in
  app/api/translate/route.ts at lines 5-8, 15, 19-30, 62-68 and 76-116.
- `Analyze` and `Translate` hold the two handlers.
- `Models` holds the registry of app/config/models.ts.

Three behaviours of the code are easy to misread:

- The user key is the header with its first `"Bearer "` removed, wherever it
  stands. It is not the token of a `Bearer <token>` header in the sense of
  section 2.1 of RFC 6750 (`Routing.UserKeyCutsInnerBearer`,
  `Routing.InnerBearerExample`).
- The provider is guessed from the request's own `apiUrl` only. A request
  without `apiUrl` always falls back to `API_KEY`, even when `API_URL` points
  at bigmodel.cn.
- The environment is read once, when each route module loads, not per request.
  In the model it is a parameter either way.

## Model

| member | source | states |
|---|---|---|
| `JsStrings.IndexOfFrom` | app/api/analyze/route.ts:18 | the index found is an occurrence of the pattern with no occurrence before it; no index means no occurrence at all |
| `JsStrings.IndexOf` | app/api/analyze/route.ts:18 | `indexOf` reports an occurrence of the pattern with none before it, or none when the pattern occurs nowhere |
| `JsStrings.NoOccurrenceBefore` | app/api/analyze/route.ts:18 | no occurrence starts where the pattern's first character is absent |
| `JsStrings.RemoveFirstAt` | app/api/analyze/route.ts:18 | when the first occurrence is at a known index, `replace` joins the text before and after it |
| `JsStrings.Includes` | app/api/analyze/route.ts:24 | `includes` holds exactly when the pattern occurs at some index |
| `JsStrings.RemoveFirst` | app/api/analyze/route.ts:18 | a string without the pattern is unchanged; otherwise the result is shorter by the pattern's length, and putting the pattern back at its first index restores the string |
| `JsStrings.RemoveFirstPrefix` | app/api/analyze/route.ts:18 | a string that starts with the pattern loses exactly that prefix |
| `JsStrings.Or` | app/api/analyze/route.ts:28 | the logical or of two strings is the first when it is non-empty, else the second, and is empty only when both are |
| `Web.ErrorResponseRoundTrip` | app/api/analyze/route.ts:40-43 | the `{error:{message}}` body reads back as its message, with the status given |
| `Web.SkipLeading` | app/api/analyze/route.ts:17 | the index reached is preceded, from the start index, by HTTP whitespace only, and holds none itself |
| `Web.SkipTrailing` | app/api/analyze/route.ts:17 | the end reached is followed, up to the old end, by HTTP whitespace only, and the character before it is none |
| `Web.HeaderValueTrims` | app/api/analyze/route.ts:17 | the value `Web.HeaderValue` reads back, as `req.headers.get` does, is the raw value minus the HTTP whitespace before and after it, with none at either end, and a value without whitespace at its ends is read back unchanged |
| `Routing.LoadConfig` | app/api/analyze/route.ts:5-7 | missing or empty keys become `''`; `API_URL` is the variable when non-empty, else the Gemini endpoint, so it is never empty |
| `Routing.Caught` | app/api/analyze/route.ts:105-111 | an exception yields 500 with the `Error`'s own message, or the generic server-error text for any other thrown value |
| `Routing.Relay` | app/api/analyze/route.ts:71-104 | proxy failure mirrors status and message; streaming success passes the same body on with the three SSE headers, or 500 without a body; buffered success returns the upstream JSON unchanged with 200; a stream body appears only in the streaming-success case |
| `Routing.UserApiKey` | app/api/analyze/route.ts:17-18 | no header gives `''`; a header without `"Bearer "` passes unchanged; otherwise exactly the first `"Bearer "` is cut out, wherever it stands |
| `Routing.BearerPrefixGivesToken` | app/api/analyze/route.ts:18 | a header `"Bearer " + t` gives the key `t` |
| `Routing.UserKeyCutsInnerBearer` | app/api/analyze/route.ts:18 | a `"Bearer "` in mid-header is removed too: for any text without a `'B'` before it, the key is that text joined to what follows the `"Bearer "` |
| `Routing.InnerBearerExample` | app/api/analyze/route.ts:18 | `"TokenBearer xyz"` gives the key `"Tokenxyz"` |
| `Routing.IsGlm` | app/api/analyze/route.ts:24 | the request counts as GLM exactly when it has an `apiUrl` and `"bigmodel.cn"` occurs in it |
| `Routing.DefaultApiKey` | app/api/analyze/route.ts:24-25 | `GLM_API_KEY` when the request's `apiUrl` contains `"bigmodel.cn"`, else `API_KEY`; no `apiUrl` always selects `API_KEY` |
| `Routing.EffectiveApiKey` | app/api/analyze/route.ts:28 | a non-empty user key wins, else the provider's fallback key; the effective key is empty only when both are |
| `Routing.EffectiveApiUrl` | app/api/analyze/route.ts:47 | a non-empty `apiUrl` is used, else `API_URL`; the URL is non-empty whenever `API_URL` is |
| `Routing.StreamRequested` | app/api/analyze/route.ts:21 | an absent `stream` means false; a present one is taken as given |
| `Routing.BuildPayload` | app/api/analyze/route.ts:57-63 | the payload has `reasoning_effort` `"none"`, exactly one user message holding the content, `model` defaulting to `MODEL_NAME`, and `stream` true only when requested |
| `Routing.RegistryGlmUrlSelectsGlmKey` | app/config/models.ts:25-33 | sending the registry's GLM endpoint as `apiUrl` selects `GLM_API_KEY` |
| `Analyze.Post` | app/api/analyze/route.ts:11-112 | the proxy is called only after a body parsed, with a non-empty key and one non-empty message; without a call the status is 400 or 500; a stream response only follows a streaming call and carries the SSE headers |
| `Analyze.MalformedBody` | app/api/analyze/route.ts:105-111 | an unparsable body gives 500 with the exception's message and no proxy call |
| `Analyze.MissingKey` | app/api/analyze/route.ts:39-44 | no user key and no fallback key gives 500 with the no-key message and no proxy call, whatever the prompt |
| `Analyze.MissingPrompt` | app/api/analyze/route.ts:49-54 | with a key, a missing or empty prompt gives 400 and no proxy call |
| `Analyze.Forwards` | app/api/analyze/route.ts:56-69 | with a key and a prompt, one call at the effective URL with the effective key, the prompt verbatim as the one user message, the defaults applied, and the answer relayed from the proxy result |
| `Analyze.UserKeyReachesProxy` | app/api/analyze/route.ts:17-28 | a `Bearer` token in the header is the key sent upstream, whatever the server keys are |
| `Analyze.ServerKeyByProvider` | app/api/analyze/route.ts:24-28 | without a user key, a bigmodel.cn `apiUrl` is sent with `GLM_API_KEY` and any other with `API_KEY`; no `apiUrl` and no `API_KEY` gives 500 |
| `Analyze.EmptyBearerTokenIsKey` | app/api/analyze/route.ts:17-28 | a `Bearer ` header with an empty token reaches the handler trimmed to `"Bearer"`, which holds no `"Bearer "` and is sent upstream as the key |
| `Translate.Post` | app/api/translate/route.ts:10-117 | as for analyze, and the one message sent is always the translation prompt around the request's text |
| `Translate.TranslationPrompt` | app/api/translate/route.ts:56-61 | the prompt is the fixed prefix, then the text verbatim at the prefix's length, then the fixed suffix; it never equals the raw text |
| `Translate.TemplateRoundTrip` | app/api/translate/route.ts:56-61 | cutting the fixed prefix and suffix off a prompt recovers the text, so two different texts never give the same prompt |
| `Translate.MalformedBody` | app/api/translate/route.ts:110-116 | an unparsable body gives 500 with the exception's message and no proxy call |
| `Translate.MissingKey` | app/api/translate/route.ts:41-46 | no usable key gives 500 with the no-key message and no proxy call, before the text is looked at |
| `Translate.MissingText` | app/api/translate/route.ts:48-53 | with a key, a missing or empty text gives 400 and no proxy call |
| `Translate.Forwards` | app/api/translate/route.ts:55-74 | with a key and a text, one call at the effective URL with the effective key whose single user message is the wrapped text, never the raw text, and the answer relayed |
| `Translate.RateLimitedTranslation` | app/api/translate/route.ts:76-82 | a two-line text reaches the proxy with its line break inside the template, and an upstream 429 "rate limited" comes back as 429 with that message |
| `Models.FindFrom` | app/config/models.ts:50 | the index found holds the id with no earlier entry holding it; no index means no entry holds it |
| `Models.GetModelConfig` | app/config/models.ts:49-56 | the result is always an entry of the table; it has the id whenever some entry does; otherwise it is the first entry |
| `Models.ExactLookup` | app/config/models.ts:49-55 | the first entry with the id is the one returned |
| `Models.UnknownIdFallsBack` | app/config/models.ts:51-53 | an id no entry has yields `AI_MODELS[0]`, whose id differs from it |
| `Models.DistinctIds` | app/config/models.ts:15-43 | the three ids are pairwise distinct, and each listed id looks up its own entry |
| `Models.DefaultModelLookup` | app/config/models.ts:46 | `DEFAULT_MODEL` is `"gemini-3-flash-preview"`, and looking it up gives the first entry |
| `Models.GetModelApiUrl` | app/config/models.ts:59-61 | the URL of the entry with the id, or of the first entry for an unknown id |
| `Models.GetModelName` | app/config/models.ts:63-66 | the upstream model name of the entry with the id, or of the first entry for an unknown id |
| `Models.GetModelIcon` | app/config/models.ts:68-71 | the icon of the entry with the id, or of the first entry for an unknown id |
| `Models.GlmEntryIsBigmodel` | app/config/models.ts:25-33 | the GLM entry's URL contains `"bigmodel.cn"` at index 13 |

## Left out

- The Next.js framework: request parsing, header access and response construction are modelled by their values only.
- Header lookup itself (case-insensitive names, several values joined by commas) is not modelled. The `authHeader` parameter is the value `req.headers.get` returns, which the `Headers` object has already trimmed of leading and trailing HTTP whitespace. `Web.HeaderValue` states that trimming, so a `Bearer ` header with an empty token arrives as `"Bearer"` and becomes the key (`Analyze.EmptyBearerTokenIsKey`).
- Strings are sequences of Unicode scalar values, while JavaScript strings are sequences of UTF-16 code units. A body holding a lone surrogate such as `"\ud800"` cannot be represented. The operations modelled (concatenation, search for ASCII patterns, equality) treat both forms alike.
- `JsStrings.RemoveFirst` models `replace` with an empty replacement only. Replacement patterns such as `$&` are not modelled, since the handlers never use them.
- `proxyOpenAICompatibleRequest` and its `fetch` are not part of this model. They are the `upstream` parameter, and the `raw` error detail it returns is only logged, so it is not modelled.
- The byte stream's contents and backpressure: the handler passes the stream on as an opaque value.
- All `console` logging, including the ten-character key preview; it does not affect the response.
- `await` and concurrency: a handler invocation is one step, with no state shared across requests.
- Body fields of other JSON types than the ones modelled: `prompt`, `text`, `model` and `apiUrl` are strings or absent, and `stream` is a boolean or absent. A `null` field, a non-string `prompt`, or a truthy non-boolean `stream` are not modelled.
- A proxy failure status outside 200-599 would make `NextResponse.json` throw a `RangeError`. The model mirrors the status as given.
- The display-only registry fields (`label`, named `displayName` here, and `desc`) are kept as plain strings with no property about them.
- The `console.warn` for an unknown model id is logging and is left out.
