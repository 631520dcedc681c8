/** The authentication namespace (`namespaces/userAuth.ts`): create an
    account, log in, log out. Its real methods are handed out to any ready
    context, including one without a user, so that a signed-out visitor can
    log in. A success awaits the provider's `reload` before returning. */
module UserAuthNamespace {
  import opened Wrappers
  import opened JsValue
  import opened ApiCommon
  import opened ApiProvider
  import opened ApiHooks
  import opened NamespaceSupport

  /** The gate: `api.status === "ready"`. */
  function UseUserAuth(ctx: ApiContext): (ns: Binding)
    ensures ns.Live? <==> ctx.Ready?
  {
    if ctx.Ready? then Live else Stubbed
  }

  /** An authentication call run to completion, with the provider state it
      leaves behind. */
  datatype AuthStep = AuthStep(outcome: Settled<Value>, issued: seq<HttpRequest>, state: ProviderState)

  /** What a method returns on success: the response data (create, login)
      or `true` (logout); on failure `null` or `false` respectively. */
  datatype Answer = WithData | WithFlag

  /** The promise of a live method sending `req`: a rejected fetch rejects
      and changes nothing; a non-ok status returns the failure value and
      changes nothing; an ok status runs `reload`, whose state is kept and
      whose rejection rejects the call. */
  predicate ReloadsOnSuccess(s: ProviderState, b: Browser, req: HttpRequest, r: AuthStep, answer: Answer) {
    match b.fetch(req)
    case NetworkFailure => r == AuthStep(Rejected, [req], s)
    case Response(status, text) =>
      if !IsOk(status) then
        r == AuthStep(Fulfilled(if answer.WithData? then Null else Bool(false)), [req], s)
      else
        var t := Reload(s, b);
        && r.issued == [req, ProbeRequest]
        && r.state == t.state
        && r.outcome == (if t.outcome.Rejected? then Rejected
                         else Fulfilled(if answer.WithData? then Decode(b, text) else Bool(true)))
  }

  /** The shared shape of the three live methods. */
  function Authenticate(s: ProviderState, b: Browser, endpoint: string, body: Value, answer: Answer): (r: AuthStep)
    requires ContextOf(s).Ready?
    ensures ReloadsOnSuccess(s, b, ResolveRequest(b, endpoint, WithBody(POST, body), JsonEncoded), r, answer)
  {
    var ctx := ContextOf(s);
    var st := CallRequest(UseApiRequest(ctx), b, endpoint, WithBody(POST, body));
    match st.outcome
    case Rejected => AuthStep(Rejected, st.issued, s)
    case Fulfilled(Failure(_, _)) =>
      AuthStep(Fulfilled(if answer.WithData? then Null else Bool(false)), st.issued, s)
    case Fulfilled(Success(data)) =>
      var t := CallReload(UseApiReload(ctx), s, b);
      var value := if answer.WithData? then data else Bool(true);
      AuthStep(if t.outcome.Rejected? then Rejected else Fulfilled(value), st.issued + t.issued, t.state)
  }

  /** `create(username, displayName, password)`. */
  function Create(s: ProviderState, b: Browser, username: string, displayName: string, password: string): (r: AuthStep)
    ensures !ContextOf(s).Ready? ==> r == AuthStep(Fulfilled(Null), [], s)
    ensures ContextOf(s).Ready? ==> ReloadsOnSuccess(s, b,
      HttpRequest("/api/user/auth/create", POST,
        Some(JsonText(b.stringify(Obj([("username", Str(username)), ("displayName", Str(displayName)), ("password", Str(password))]))))),
      r, WithData)
  {
    if UseUserAuth(ContextOf(s)).Stubbed? then AuthStep(Fulfilled(Null), [], s)
    else
      var body := Obj([("username", Str(username)), ("displayName", Str(displayName)), ("password", Str(password))]);
      assert "/api" + "/user/auth/create" == "/api/user/auth/create";
      PathUnderApi(b, "/user/auth/create", WithBody(POST, body), JsonEncoded);
      Authenticate(s, b, "/user/auth/create", body, WithData)
  }

  /** `login(username, password)`. */
  function Login(s: ProviderState, b: Browser, username: string, password: string): (r: AuthStep)
    ensures !ContextOf(s).Ready? ==> r == AuthStep(Fulfilled(Null), [], s)
    ensures ContextOf(s).Ready? ==> ReloadsOnSuccess(s, b,
      HttpRequest("/api/user/auth/login", POST,
        Some(JsonText(b.stringify(Obj([("username", Str(username)), ("password", Str(password))]))))),
      r, WithData)
  {
    if UseUserAuth(ContextOf(s)).Stubbed? then AuthStep(Fulfilled(Null), [], s)
    else
      var body := Obj([("username", Str(username)), ("password", Str(password))]);
      assert "/api" + "/user/auth/login" == "/api/user/auth/login";
      PathUnderApi(b, "/user/auth/login", WithBody(POST, body), JsonEncoded);
      Authenticate(s, b, "/user/auth/login", body, WithData)
  }

  /** `logout()`: a POST without a body; gated off it gives `null`, not `false`. */
  function Logout(s: ProviderState, b: Browser): (r: AuthStep)
    ensures !ContextOf(s).Ready? ==> r == AuthStep(Fulfilled(Null), [], s)
    ensures ContextOf(s).Ready? ==> ReloadsOnSuccess(s, b, HttpRequest("/api/user/auth/logout", POST, None), r, WithFlag)
  {
    if UseUserAuth(ContextOf(s)).Stubbed? then AuthStep(Fulfilled(Null), [], s)
    else
      assert "/api" + "/user/auth/logout" == "/api/user/auth/logout";
      PathUnderApi(b, "/user/auth/logout", WithBody(POST, Undefined), JsonEncoded);
      Authenticate(s, b, "/user/auth/logout", Undefined, WithFlag)
  }

  /** A signed-out but ready provider can log in: the login is sent, and an
      ok answer is followed by exactly one session probe whose result
      becomes the provider's state. */
  lemma LoginWhileSignedOut(s: ProviderState, b: Browser, username: string, password: string)
    requires ContextOf(s).Ready? && !Truthy(ContextOf(s).user)
    requires var login := HttpRequest("/api/user/auth/login", POST,
               Some(JsonText(b.stringify(Obj([("username", Str(username)), ("password", Str(password))])))));
             b.fetch(login).Response? && IsOk(b.fetch(login).status)
    ensures |Login(s, b, username, password).issued| == 2
    ensures Login(s, b, username, password).issued[1] == ProbeRequest
    ensures Login(s, b, username, password).state == Reload(s, b).state
  {
  }
}
