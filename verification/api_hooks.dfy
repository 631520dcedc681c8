/** The consumer accessors of `index.ts`: read-only projections of the
    context, and the request and reload functions with their safe stubs for
    a context that is not ready. */
module ApiHooks {
  import opened Wrappers
  import opened JsValue
  import opened ApiCommon
  import opened ApiProvider

  /** `useApiStatus`: the context's status tag. */
  function UseApiStatus(ctx: ApiContext): (status: string)
    ensures status == "ready" <==> ctx.Ready?
    ensures status == "error" <==> ctx.Error?
    ensures status == "initializing" <==> ctx.Initializing?
  {
    match ctx
    case Ready(_, _) => "ready"
    case Initializing => "initializing"
    case Error(_) => "error"
  }

  /** `useApiError`: the reason of an `error` context, else `null`. */
  function UseApiError(ctx: ApiContext): (reason: Value)
    ensures ctx.Error? ==> reason == ctx.reason
    ensures !ctx.Error? ==> reason == Null
  {
    if ctx.Error? then ctx.reason else Null
  }

  /** `useSession`: the session of a `ready` context, else `null`. */
  function UseSession(ctx: ApiContext): (session: Value)
    ensures ctx.Ready? ==> session == ctx.session
    ensures !ctx.Ready? ==> session == Null
  {
    if ctx.Ready? then ctx.session else Null
  }

  /** `useUser`: the user of a `ready` context when it is truthy, else `null`. */
  function UseUser(ctx: ApiContext): (user: Value)
    ensures user != Null <==> ctx.Ready? && Truthy(ctx.user)
    ensures user != Null ==> user == ctx.user
  {
    if ctx.Ready? && Truthy(ctx.user) then ctx.user else Null
  }

  /** The request function a hook hands out: the provider's, or the stub. */
  datatype RequestFunction = BoundRequest | StubRequest

  /** `useApiRequest`: the provider's `request` only when ready. */
  function UseApiRequest(ctx: ApiContext): (f: RequestFunction)
    ensures f.BoundRequest? <==> ctx.Ready?
  {
    if ctx.Ready? then BoundRequest else StubRequest
  }

  /** Calling a request function. The stub resolves to a failure with
      `data: null` and `code: 0` and issues nothing. */
  function CallRequest(f: RequestFunction, b: Browser, endpoint: string, options: Option<RequestOptions>): (st: Step<ApiResponse>)
    ensures f.StubRequest? ==> st == Step(Fulfilled(Failure(Null, 0)), [])
    ensures f.BoundRequest? ==> st == Request(b, endpoint, options)
  {
    match f
    case BoundRequest => Request(b, endpoint, options)
    case StubRequest => Step(Fulfilled(Failure(Null, 0)), [])
  }

  /** The reload function a hook hands out: the provider's, or a no-op. */
  datatype ReloadFunction = BoundReload | NoOpReload

  /** `useApiReload`: the provider's `reload` only when ready. */
  function UseApiReload(ctx: ApiContext): (f: ReloadFunction)
    ensures f.BoundReload? <==> ctx.Ready?
  {
    if ctx.Ready? then BoundReload else NoOpReload
  }

  /** Calling a reload function. The no-op resolves at once, issues
      nothing and leaves the provider's state as it was. */
  function CallReload(f: ReloadFunction, s: ProviderState, b: Browser): (t: Transition)
    ensures f.NoOpReload? ==> t == Transition(Fulfilled(()), [], s)
    ensures f.BoundReload? ==> t == Reload(s, b)
  {
    match f
    case BoundReload => Reload(s, b)
    case NoOpReload => Transition(Fulfilled(()), [], s)
  }

  /** Outside a provider every accessor reports the missing context. */
  lemma DefaultContextAccessors()
    ensures UseApiStatus(DefaultContext) == "error"
    ensures UseApiError(DefaultContext) == Str("Context not initialized.")
    ensures UseSession(DefaultContext) == Null && UseUser(DefaultContext) == Null
  {
  }

  /** A context that is not ready never reaches the network through the
      accessors: the request stub fails with code 0 and reload does nothing. */
  lemma NotReadyIsInert(ctx: ApiContext, s: ProviderState, b: Browser, endpoint: string, options: Option<RequestOptions>)
    requires !ctx.Ready?
    ensures CallRequest(UseApiRequest(ctx), b, endpoint, options) == Step(Fulfilled(Failure(Null, 0)), [])
    ensures CallReload(UseApiReload(ctx), s, b) == Transition(Fulfilled(()), [], s)
  {
  }

  /** The accessors over the provider's own context: an `error` state
      hides the session, and a session without a truthy user gives no user. */
  lemma ProviderAccessors(s: ProviderState)
    ensures UseApiError(ContextOf(s)) == (if Truthy(s.error) then s.error else Null)
    ensures UseSession(ContextOf(s)) == (if !Truthy(s.error) && Truthy(s.session) then s.session else Null)
    ensures UseUser(ContextOf(s)) != Null <==> !Truthy(s.error) && Truthy(s.session) && Truthy(Prop(s.session, "user"))
  {
  }
}
