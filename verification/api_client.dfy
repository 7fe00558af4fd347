/** The dashboard's two HTTP helpers: `request` (apps/dashboard/src/services/client.ts),
    which adds the session token, and `requestWithChatID`
    (apps/dashboard/src/services/publicChat.ts), which adds the public chat
    key. `fetch` itself is the environment: the model computes what is
    handed to it and decodes the response it returns. */
module ApiClient {
  import opened Wrappers
  import opened JsonValues
  import opened Text

  type Headers = map<string, string>

  /** The parts of a `RequestInit` the helpers look at. */
  datatype Init = Init(headers: Option<Headers>, isForm: bool, credentials: Option<string>)

  /** The options object passed to `fetch`. */
  datatype FetchCall = FetchCall(url: string, credentials: Option<string>, headers: Headers)

  /** What `response.json()` produced: None when the body was not JSON. */
  datatype Response = Response(ok: bool, status: int, statusText: string, body: Option<Json>)

  datatype ApiError = ApiError(message: Json, status: Option<int>, code: Option<Json>, requestId: Option<Json>)

  /** A resolved value (None is `undefined`) or a thrown ApiError. */
  datatype Reply = Value(value: Option<Json>) | Raised(error: ApiError)

  const ContentType := "Content-Type"
  const JsonMedia := "application/json"

  /** `getToken()` returned a truthy string. */
  predicate HasToken(token: Option<string>) { token.Some? && token.value != "" }

  // ---------------------------------------------------------------------
  // client.ts: headers

  /** The headers `request` builds: the caller's headers over the bearer
      token, and JSON as the content type unless the body is a form or the
      caller named a content type. */
  function RequestHeaders(token: Option<string>, init: Init): (h: Headers)
    ensures var raw := init.headers.GetOr(map[]);
      && (forall k :: k in raw ==> k in h && h[k] == raw[k])
      && ("Authorization" in h <==> "Authorization" in raw || HasToken(token))
      && (HasToken(token) && "Authorization" !in raw ==> h["Authorization"] == "Bearer " + token.value)
      && (ContentType in h <==> ContentType in raw || !init.isForm)
      && (!init.isForm && ContentType !in raw ==> h[ContentType] == JsonMedia)
      && (forall k :: k in h ==> k in raw || k == "Authorization" || k == ContentType)
  {
    var raw := init.headers.GetOr(map[]);
    var base := (if HasToken(token) then map["Authorization" := "Bearer " + token.value] else map[]) + raw;
    if !init.isForm && ContentType !in base then base[ContentType := JsonMedia] else base
  }

  /** The header object as `request` builds it: spread, then mutated. */
  method BuildRequestHeaders(token: Option<string>, init: Init) returns (headers: Headers)
    ensures headers == RequestHeaders(token, init)
  {
    var raw := init.headers.GetOr(map[]);
    headers := map[];
    if HasToken(token) {
      headers := headers["Authorization" := "Bearer " + token.value];
    }
    headers := headers + raw;
    if !init.isForm && ContentType !in headers {
      headers := headers[ContentType := JsonMedia];
    }
  }

  /** `fetch(url, {credentials: 'include', headers, ...init})` as written:
      the caller's own `init.headers`, when present, replaces the built
      header object. */
  function FetchCallAsWritten(url: string, init: Init, headers: Headers): (c: FetchCall)
    ensures init.headers.Some? ==> c.headers == init.headers.value
    ensures init.headers.None? ==> c.headers == headers
    ensures c.credentials == Some(init.credentials.GetOr("include"))
  {
    FetchCall(url, Some(init.credentials.GetOr("include")), if init.headers.Some? then init.headers.value else headers)
  }

  /** A caller that passes its own header (the public API passes
      `X-API-Key`) loses both the bearer token and the JSON content type. */
  lemma CallerHeadersDropToken()
    ensures var init := Init(Some(map["X-API-Key" := "k"]), false, None);
            var sent := FetchCallAsWritten("/api/v1/session", init, RequestHeaders(Some("t"), init));
            && "Authorization" in RequestHeaders(Some("t"), init)
            && "Authorization" !in sent.headers
            && ContentType !in sent.headers
  {
    var init := Init(Some(map["X-API-Key" := "k"]), false, None);
    assert "Authorization" !in init.headers.value;
  }

  /** The evidently intended call: the built headers are sent. */
  function RequestCall(url: string, init: Init, headers: Headers): (c: FetchCall)
    ensures c.headers == headers && c.url == url
    ensures c.credentials == Some(init.credentials.GetOr("include"))
  {
    FetchCall(url, Some(init.credentials.GetOr("include")), headers)
  }

  /** With the intended call, every request with a token carries it (unless
      the caller set Authorization itself), every non-form request carries a
      content type, and the caller's own headers are all sent. */
  lemma RequestCallCarriesToken(url: string, token: Option<string>, init: Init)
    ensures var sent := RequestCall(url, init, RequestHeaders(token, init));
            var raw := init.headers.GetOr(map[]);
            && (HasToken(token) ==> "Authorization" in sent.headers)
            && (!init.isForm ==> ContentType in sent.headers)
            && (forall k :: k in raw ==> k in sent.headers && sent.headers[k] == raw[k])
  {
  }

  /** Without caller headers the as-written and the intended call agree. */
  lemma AsWrittenAgreesWithoutCallerHeaders(url: string, token: Option<string>, init: Init)
    requires init.headers.None?
    ensures FetchCallAsWritten(url, init, RequestHeaders(token, init)) == RequestCall(url, init, RequestHeaders(token, init))
  {
  }

  // ---------------------------------------------------------------------
  // Envelope decoding, shared by both helpers

  /** `payload && typeof payload === 'object' && 'code' in payload` */
  predicate IsEnvelope(payload: Json) { payload.JObject? && "code" in payload.fields }

  /** The ok branch: an envelope with `code !== 0` throws, one with code 0
      resolves to its `data`; any other payload resolves to itself. */
  function DecodeOk(payload: Json): (r: Reply)
    ensures IsEnvelope(payload) ==> (r.Raised? <==> payload.fields["code"] != JNumber(0.0))
    ensures IsEnvelope(payload) && r.Raised? ==>
              r.error.code == Some(payload.fields["code"]) && r.error.status == None &&
              r.error.requestId == Field(Some(payload), "request_id") &&
              Truthy(r.error.message)
    ensures IsEnvelope(payload) && r.Value? ==> r.value == Field(Some(payload), "data")
    ensures !IsEnvelope(payload) ==> r == Value(Some(payload))
  {
    if IsEnvelope(payload) then
      var code := payload.fields["code"];
      if code != JNumber(0.0) then
        Raised(ApiError(Or(Field(Some(payload), "message"), Some(JString("Request failed"))).value,
                        None, Some(code), Field(Some(payload), "request_id")))
      else Value(Field(Some(payload), "data"))
    else Value(Some(payload))
  }

  /** client.ts: the reply to a response. A non-ok status throws with the
      payload's message, else the status text, else 'Request failed'. */
  function Decode(r: Response): (reply: Reply)
    ensures !r.ok ==> reply.Raised? && reply.error.status == Some(r.status)
    ensures !r.ok ==> reply.error.code == Field(r.body, "code") && reply.error.requestId == Field(r.body, "request_id")
    ensures !r.ok && Field(r.body, "message").Some? && Truthy(Field(r.body, "message").value) ==>
              reply.error.message == Field(r.body, "message").value
    ensures !r.ok && !(Field(r.body, "message").Some? && Truthy(Field(r.body, "message").value)) ==>
              reply.error.message == JString(if r.statusText != "" then r.statusText else "Request failed")
    ensures r.ok ==> reply == DecodeOk(r.body.GetOr(JNull))
    ensures r.ok && r.body.None? ==> reply == Value(Some(JNull))
  {
    var payload := r.body.GetOr(JNull);
    if !r.ok then
      var message := Or(Field(Some(payload), "message"), Or(Some(JString(r.statusText)), Some(JString("Request failed"))));
      Raised(ApiError(message.value, Some(r.status), Field(Some(payload), "code"), Field(Some(payload), "request_id")))
    else DecodeOk(payload)
  }

  /** The server's success envelope `{code: 0, data}` decodes to its data,
      and an error envelope always throws with its code. */
  lemma EnvelopeRoundTrip(data: Json, code: Json, status: int, extra: map<string, Json>)
    requires 200 <= status < 300
    ensures Decode(Response(true, status, "", Some(JObject(extra["code" := JNumber(0.0)]["data" := data])))) ==
            Value(Some(data))
    ensures code != JNumber(0.0) ==>
              var reply := Decode(Response(true, status, "", Some(JObject(extra["data" := data]["code" := code]))));
              reply.Raised? && reply.error.code == Some(code)
  {
  }

  // ---------------------------------------------------------------------
  // publicChat.ts

  /** The headers `requestWithChatID` builds: the chat key under the
      caller's headers, and JSON as the content type unless the body is a
      form or the caller gave a non-empty content type. */
  function ChatHeaders(chatId: string, init: Init): (h: Headers)
    ensures var raw := init.headers.GetOr(map[]);
      && (forall k :: k in raw && (k != ContentType || init.isForm || raw[k] != "") ==> k in h && h[k] == raw[k])
      && ("X-Chat-Key" in h && ("X-Chat-Key" !in raw ==> h["X-Chat-Key"] == chatId))
      && (!init.isForm ==> ContentType in h && h[ContentType] != "")
      && (!init.isForm && (ContentType !in raw || raw[ContentType] == "") ==> h[ContentType] == JsonMedia)
      && (forall k :: k in h ==> k in raw || k == "X-Chat-Key" || k == ContentType)
  {
    var merged := map["X-Chat-Key" := chatId] + init.headers.GetOr(map[]);
    if init.isForm then merged
    else merged[ContentType := if ContentType in merged && merged[ContentType] != "" then merged[ContentType] else JsonMedia]
  }

  /** The header record as `requestWithChatID` builds it: spread, then
      the content type assigned with `||`. */
  method BuildChatHeaders(chatId: string, init: Init) returns (headers: Headers)
    ensures headers == ChatHeaders(chatId, init)
  {
    headers := map["X-Chat-Key" := chatId];
    headers := headers + init.headers.GetOr(map[]);
    if !init.isForm {
      var current := if ContentType in headers then headers[ContentType] else "";
      headers := headers[ContentType := if current != "" then current else JsonMedia];
    }
  }

  /** `fetch(url, {...init, headers})`: the built headers are sent and
      credentials are the caller's. */
  function ChatCall(url: string, chatId: string, init: Init): (c: FetchCall)
    ensures c.headers == ChatHeaders(chatId, init)
    ensures c.credentials == init.credentials
    ensures "X-Chat-Key" in c.headers
  {
    FetchCall(url, init.credentials, ChatHeaders(chatId, init))
  }

  /** publicChat.ts: like Decode, but a non-ok status throws with the
      payload's message or `Request failed (<status>)` and no request id. */
  function DecodeChat(r: Response): (reply: Reply)
    ensures !r.ok ==> reply.Raised? && reply.error.status == Some(r.status) && reply.error.requestId == None
    ensures !r.ok ==> reply.error.code == Field(r.body, "code")
    ensures !r.ok && Field(r.body, "message").Some? && Truthy(Field(r.body, "message").value) ==>
              reply.error.message == Field(r.body, "message").value
    ensures !r.ok && !(Field(r.body, "message").Some? && Truthy(Field(r.body, "message").value)) ==>
              reply.error.message == JString("Request failed (" + IntToString(r.status) + ")")
    ensures r.ok ==> reply == Decode(r)
  {
    var payload := r.body.GetOr(JNull);
    if !r.ok then
      var message := Or(Field(Some(payload), "message"), Some(JString("Request failed (" + IntToString(r.status) + ")")));
      Raised(ApiError(message.value, Some(r.status), Field(Some(payload), "code"), None))
    else DecodeOk(payload)
  }

  const SessionPrefix := "/api/v1/session/"
  const SessionQuery := "?include_messages=true&limit=200"

  /** getSession's path; `encode` is `encodeURIComponent`. The encoded id
      sits between the fixed prefix and the fixed query. */
  function SessionPath(encode: string -> string, sessionId: string): (p: string)
    ensures HasPrefix(p, SessionPrefix) && HasSuffix(p, SessionQuery)
    ensures |p| == |SessionPrefix| + |encode(sessionId)| + |SessionQuery|
    ensures p[|SessionPrefix|..|p| - |SessionQuery|] == encode(sessionId)
  {
    SessionPrefix + encode(sessionId) + SessionQuery
  }

  /** Distinct session ids give distinct paths whenever the encoding is
      injective. */
  lemma SessionPathInjective(encode: string -> string, a: string, b: string)
    requires forall x, y :: encode(x) == encode(y) ==> x == y
    requires SessionPath(encode, a) == SessionPath(encode, b)
    ensures a == b
  {
    var pa := SessionPath(encode, a);
    assert encode(a) == pa[|SessionPrefix|..|pa| - |SessionQuery|];
  }
}
