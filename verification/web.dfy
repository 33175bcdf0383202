/**
 * The values that cross the route handlers' boundary: JSON documents, what a
 * thrown exception carries, the outbound chat-completion request, what the
 * shared proxy function reports back, and the response a handler returns.
 * The HTTP framework, the proxy's `fetch` and the byte stream itself are not
 * modelled; a stream is an opaque token that is either passed on or not.
 */
module Web {
  import opened JsStrings

  /** A JSON value; object members keep their order. */
  datatype Json =
    | JNull
    | JBool(b: bool)
    | JNumber(n: int)
    | JString(s: string)
    | JArray(items: seq<Json>)
    | JObject(members: seq<(string, Json)>)

  /** What a `throw` carries: an `Error` instance with its message, or any other value. */
  datatype Thrown = ErrorInstance(message: string) | OtherValue

  /** The outcome of an operation that may throw (`await req.json()`, the proxy, `response.json()`). */
  datatype Attempt<+T> = Returned(value: T) | Threw(thrown: Thrown)

  /** The upstream response's `ReadableStream`, as an opaque identity. */
  datatype UpstreamStream = UpstreamStream(id: nat)

  /**
   * A successful upstream response, still unconsumed: its `body` (null when
   * the runtime exposes none) and what `response.json()` would produce.
   */
  datatype UpstreamResponse = UpstreamResponse(body: Option<UpstreamStream>, json: Attempt<Json>)

  /** What the shared proxy function reports: `{ok: true, response}` or `{ok: false, status, error}`. */
  datatype ProxyResult =
    | ProxyOk(response: UpstreamResponse)
    | ProxyFailed(status: int, message: string)

  datatype ChatMessage = ChatMessage(role: string, content: string)

  /** The OpenAI-compatible chat-completion payload both handlers build. */
  datatype ChatPayload = ChatPayload(
    model: string,
    reasoningEffort: string,
    messages: seq<ChatMessage>,
    stream: bool)

  /** The arguments handed to the proxy function: `{url, apiKey, payload}`. */
  datatype ProxyRequest = ProxyRequest(url: string, apiKey: string, payload: ChatPayload)

  datatype Body = JsonBody(json: Json) | StreamBody(stream: UpstreamStream)

  /** A `NextResponse`: status, headers in order, and body. */
  datatype Response = Response(status: int, headers: seq<(string, string)>, body: Body)

  /** What one handler invocation did: the proxy call it made, if any, and its response. */
  datatype Handled = Handled(sent: Option<ProxyRequest>, response: Response)

  /** HTTP whitespace as the Fetch standard defines it: tab, line feed, carriage return, space. */
  predicate IsHttpWhitespace(c: char) {
    c == '\t' || c == '\n' || c == '\r' || c == ' '
  }

  /** The first index at or after `k` that holds no HTTP whitespace, or `|s|`. */
  function SkipLeading(s: string, k: nat): (n: nat)
    requires k <= |s|
    decreases |s| - k
    ensures k <= n <= |s|
    ensures forall i :: k <= i < n ==> IsHttpWhitespace(s[i])
    ensures n < |s| ==> !IsHttpWhitespace(s[n])
  {
    if k < |s| && IsHttpWhitespace(s[k]) then SkipLeading(s, k + 1) else k
  }

  /** The end of `s[lo..hi]` once its trailing HTTP whitespace is dropped. */
  function SkipTrailing(s: string, lo: nat, hi: nat): (n: nat)
    requires lo <= hi <= |s|
    decreases hi
    ensures lo <= n <= hi
    ensures forall i :: n <= i < hi ==> IsHttpWhitespace(s[i])
    ensures n > lo ==> !IsHttpWhitespace(s[n - 1])
  {
    if hi > lo && IsHttpWhitespace(s[hi - 1]) then SkipTrailing(s, lo, hi - 1) else hi
  }

  /**
   * A header value as `req.headers.get` returns it: the `Headers` object
   * normalises every value by removing leading and trailing HTTP whitespace.
   */
  function HeaderValue(raw: string): string {
    var start := SkipLeading(raw, 0);
    raw[start..SkipTrailing(raw, start, |raw|)]
  }

  /**
   * The value read back is the piece of the raw value left once the
   * whitespace before and after it is dropped: it has none at either end,
   * and a raw value with none at its ends is read back unchanged.
   */
  lemma HeaderValueTrims(raw: string)
    ensures var v, start := HeaderValue(raw), SkipLeading(raw, 0);
            && OccursAt(raw, v, start)
            && (forall i :: 0 <= i < start ==> IsHttpWhitespace(raw[i]))
            && (forall i :: start + |v| <= i < |raw| ==> IsHttpWhitespace(raw[i]))
            && (v != "" ==> !IsHttpWhitespace(v[0]) && !IsHttpWhitespace(v[|v| - 1]))
    ensures raw == "" || (!IsHttpWhitespace(raw[0]) && !IsHttpWhitespace(raw[|raw| - 1])) ==>
              HeaderValue(raw) == raw
  {
    var start := SkipLeading(raw, 0);
    var end := SkipTrailing(raw, start, |raw|);
    var v := raw[start..end];
    if v != "" {
      assert v[0] == raw[start] && v[|v| - 1] == raw[end - 1];
    }
    if raw != "" && !IsHttpWhitespace(raw[0]) && !IsHttpWhitespace(raw[|raw| - 1]) {
      assert start == 0 && end == |raw|;
    }
  }

  const OK_STATUS := 200

  /** `NextResponse.json(data, {status})`. */
  function JsonResponse(data: Json, status: int): Response {
    Response(status, [("Content-Type", "application/json")], JsonBody(data))
  }

  /** The uniform error document `{error: {message}}`. */
  function ErrorDocument(message: string): Json {
    JObject([("error", JObject([("message", JString(message))]))])
  }

  function ErrorResponse(message: string, status: int): Response {
    JsonResponse(ErrorDocument(message), status)
  }

  /** Reads `error.message` back out of a JSON response body, as a client does. */
  function ErrorMessageOf(r: Response): Option<string> {
    match r.body
    case StreamBody(_) => None
    case JsonBody(doc) =>
      match MemberOf(doc, "error")
      case Some(err) =>
        (match MemberOf(err, "message")
         case Some(JString(m)) => Some(m)
         case _ => None)
      case None => None
  }

  /** The value of the first member named `key` of a JSON object, if there is one. */
  function MemberOf(doc: Json, key: string): Option<Json> {
    match doc
    case JObject(members) => Lookup(members, key)
    case _ => None
  }

  function Lookup(members: seq<(string, Json)>, key: string): Option<Json> {
    if members == [] then None
    else if members[0].0 == key then Some(members[0].1)
    else Lookup(members[1..], key)
  }

  /** The error document is read back as the message it was built from, with the status given. */
  lemma ErrorResponseRoundTrip(message: string, status: int)
    ensures ErrorMessageOf(ErrorResponse(message, status)) == Some(message)
    ensures ErrorResponse(message, status).status == status
    ensures ErrorResponse(message, status).body.JsonBody?
  {
  }
}
