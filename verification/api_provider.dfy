/** The provider (`ApiProvider.tsx`): request resolution, response tagging,
    the `(session, error)` state that `reload` writes, and the context value
    derived from it. */
module ApiProvider {
  import opened Wrappers
  import opened JsValue
  import opened ApiCommon

  predicate StartsWithSlash(endpoint: string) {
    |endpoint| > 0 && endpoint[0] == '/'
  }

  /** The endpoint written with a leading slash: unchanged when it has one,
      otherwise with one prepended. */
  function WithLeadingSlash(endpoint: string): string {
    if StartsWithSlash(endpoint) then endpoint else "/" + endpoint
  }

  /** The request path: `/api/`, the endpoint with one leading `/` removed,
      and `?` plus the serialised query only when a query is given. */
  function ResolvePath(endpoint: string, query: Option<Query>, encodeQuery: Query -> string): (path: string)
    ensures query.None? ==> path == "/api" + WithLeadingSlash(endpoint)
    ensures query.Some? ==> path == "/api" + WithLeadingSlash(endpoint) + "?" + encodeQuery(query.value)
  {
    var stripped := if StartsWithSlash(endpoint) then endpoint[1..] else endpoint;
    assert StartsWithSlash(endpoint) ==> endpoint == "/" + stripped;
    "/api/" + stripped + (if query.Some? then "?" + encodeQuery(query.value) else "")
  }

  /** `options?.method ?? "GET"`. */
  function ResolveMethod(options: Option<RequestOptions>): (m: Method)
    ensures options.None? || options.value.verb.None? ==> m == GET
    ensures options.Some? && options.value.verb.Some? ==> m == options.value.verb.value
  {
    match options
    case None => GET
    case Some(o) => o.verb.GetOr(GET)
  }

  /** The two transports: `request` JSON-encodes the body, `requestFile`
      hands it to `fetch` unchanged. */
  datatype BodyEncoding = JsonEncoded | PassedThrough

  /** The body handed to `fetch`: only for a body method with a truthy body. */
  function ResolveBody(options: Option<RequestOptions>, encoding: BodyEncoding, stringify: Value -> string): (body: Option<Payload>)
    ensures body.Some? <==> IsBodyMethod(options) && Truthy(options.value.body)
    ensures ResolveMethod(options) in {GET, DELETE} ==> body.None?
    ensures body.Some? && encoding == JsonEncoded ==> body.value == JsonText(stringify(options.value.body))
    ensures body.Some? && encoding == PassedThrough ==> body.value == RawBody(options.value.body)
  {
    if IsBodyMethod(options) && Truthy(options.value.body) then
      match encoding
      case JsonEncoded => Some(JsonText(stringify(options.value.body)))
      case PassedThrough => Some(RawBody(options.value.body))
    else None
  }

  function ResolveRequest(b: Browser, endpoint: string, options: Option<RequestOptions>, encoding: BodyEncoding): HttpRequest {
    var query := if options.Some? then options.value.query else None;
    HttpRequest(ResolvePath(endpoint, query, b.encodeQuery), ResolveMethod(options), ResolveBody(options, encoding, b.stringify))
  }

  /** The response body as the layer returns it: parsed JSON when the text
      parses, the raw text otherwise. */
  function Decode(b: Browser, text: string): (v: Value)
    ensures b.parse(text).Some? ==> v == b.parse(text).value
    ensures b.parse(text).None? ==> v == Str(text)
  {
    match b.parse(text)
    case Some(j) => j
    case None => Str(text)
  }

  /** Turns a status and body text into an `ApiResponse`. */
  function TagResponse(b: Browser, status: int, text: string): (r: ApiResponse)
    ensures r.Success? <==> 200 <= status < 300
    ensures r.Failure? ==> r.code == status
    ensures b.parse(text).None? ==> r.data == Str(text)
    ensures b.parse(text).Some? ==> r.data == b.parse(text).value
  {
    if IsOk(status) then Success(Decode(b, text)) else Failure(Decode(b, text), status)
  }

  /** One call of `request` (JSON encoding) or `requestFile` (pass-through):
      exactly one `fetch`, whose rejection rejects the call. */
  function Send(b: Browser, endpoint: string, options: Option<RequestOptions>, encoding: BodyEncoding): (st: Step<ApiResponse>)
    ensures st.issued == [ResolveRequest(b, endpoint, options, encoding)]
    ensures st.outcome.Rejected? <==> b.fetch(st.issued[0]).NetworkFailure?
    ensures st.outcome.Fulfilled? ==> st.outcome.value == TagResponse(b, b.fetch(st.issued[0]).status, b.fetch(st.issued[0]).text)
  {
    var req := ResolveRequest(b, endpoint, options, encoding);
    match b.fetch(req)
    case NetworkFailure => Step(Rejected, [req])
    case Response(status, text) => Step(Fulfilled(TagResponse(b, status, text)), [req])
  }

  /** The provider's bound `request` function. */
  function Request(b: Browser, endpoint: string, options: Option<RequestOptions>): Step<ApiResponse> {
    Send(b, endpoint, options, JsonEncoded)
  }

  /** The provider's two state cells. Both start as `null`; a session or
      an error is whatever value the probe returned. */
  datatype ProviderState = ProviderState(session: Value, error: Value)

  const InitialState: ProviderState := ProviderState(Null, Null)

  /** The context value the provider publishes for a state. */
  function ContextOf(s: ProviderState): (ctx: ApiContext)
    ensures ctx.Error? <==> Truthy(s.error)
    ensures ctx.Error? ==> ctx.reason == s.error
    ensures ctx.Ready? <==> !Truthy(s.error) && Truthy(s.session)
    ensures ctx.Ready? ==> ctx.session == s.session && ctx.user == Prop(s.session, "user")
  {
    if Truthy(s.error) then Error(s.error)
    else if Truthy(s.session) then Ready(s.session, Prop(s.session, "user"))
    else Initializing
  }

  /** The session probe: a GET of the API root with no body. */
  const ProbeRequest: HttpRequest := HttpRequest("/api/", GET, None)

  /** A call of `reload` run to completion, with the state it leaves. */
  datatype Transition = Transition(outcome: Settled<()>, issued: seq<HttpRequest>, state: ProviderState)

  /** `reload`: probe the session; on success store the session and clear
      the error, on failure clear the session and store the error. A
      rejected `fetch` rejects `reload` before either cell is written. */
  function Reload(s: ProviderState, b: Browser): (t: Transition)
    ensures t.issued == [ProbeRequest]
    ensures b.fetch(ProbeRequest).NetworkFailure? ==> t == Transition(Rejected, [ProbeRequest], s)
    ensures b.fetch(ProbeRequest).Response? && IsOk(b.fetch(ProbeRequest).status) ==>
      t.outcome.Fulfilled? && t.state == ProviderState(Decode(b, b.fetch(ProbeRequest).text), Null)
    ensures b.fetch(ProbeRequest).Response? && !IsOk(b.fetch(ProbeRequest).status) ==>
      t.outcome.Fulfilled? && t.state == ProviderState(Null, Decode(b, b.fetch(ProbeRequest).text))
  {
    var st := Request(b, "/", None);
    assert ResolvePath("/", None, b.encodeQuery) == "/api/" by {
      assert "/api" + WithLeadingSlash("/") == "/api/";
    }
    match st.outcome
    case Rejected => Transition(Rejected, st.issued, s)
    case Fulfilled(Success(data)) => Transition(Fulfilled(()), st.issued, ProviderState(data, Null))
    case Fulfilled(Failure(data, _)) => Transition(Fulfilled(()), st.issued, ProviderState(Null, data))
  }

  /** An endpoint with or without its leading slash resolves to the same path. */
  lemma LeadingSlashOptional(endpoint: string, query: Option<Query>, encodeQuery: Query -> string)
    requires !StartsWithSlash(endpoint)
    ensures ResolvePath("/" + endpoint, query, encodeQuery) == ResolvePath(endpoint, query, encodeQuery)
  {
  }

  /** Only one leading slash is removed: `//x` keeps its second slash. */
  lemma SecondSlashSurvives(rest: string, encodeQuery: Query -> string)
    ensures ResolvePath("//" + rest, None, encodeQuery) == "/api//" + rest
  {
  }

  /** Whether a response parses never changes its tag; only the data differs. */
  lemma ParsingNeverFlipsTag(b1: Browser, b2: Browser, status: int, text: string)
    ensures TagResponse(b1, status, text).Success? == TagResponse(b2, status, text).Success?
  {
  }

  /** The initial state publishes `initializing`. */
  lemma InitialStateIsInitializing()
    ensures ContextOf(InitialState) == Initializing
  {
  }

  /** What a settled `reload` publishes: `ready` after an ok probe and
      `error` after a failed one, but only when the body is truthy; a falsy
      body (an empty text, `null`, `0`, `false`) publishes `initializing`. */
  lemma ReloadPublishes(s: ProviderState, b: Browser)
    requires b.fetch(ProbeRequest).Response?
    ensures var resp := b.fetch(ProbeRequest);
            var data := Decode(b, resp.text);
            var ctx := ContextOf(Reload(s, b).state);
            && (ctx.Ready? <==> IsOk(resp.status) && Truthy(data))
            && (ctx.Error? <==> !IsOk(resp.status) && Truthy(data))
            && (ctx.Initializing? <==> !Truthy(data))
  {
  }

  /** A failed probe whose body is empty and does not parse puts the
      provider in `initializing`, not `error`, whatever state it was in
      before, `ready` included. */
  lemma EmptyFailedProbeGivesInitializing(s: ProviderState, b: Browser)
    requires b.fetch(ProbeRequest) == Response(500, "") && b.parse("").None?
    ensures ContextOf(Reload(s, b).state) == Initializing
  {
  }
}
