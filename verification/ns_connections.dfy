/** The connections namespace (`namespaces/connections.ts`): OAuth start
    and callback, listing, fetching and deleting linked accounts. Its real
    methods are handed out only to a ready context with a truthy user. */
module ConnectionsNamespace {
  import opened Wrappers
  import opened JsValue
  import opened ApiCommon
  import opened ApiProvider
  import opened ApiHooks
  import opened NamespaceSupport

  /** The gate: `api.status === "ready" && api.user`. */
  function UseConnections(ctx: ApiContext): (ns: Binding)
    ensures ns.Live? <==> ctx.Ready? && Truthy(ctx.user)
  {
    if ctx.Ready? && Truthy(ctx.user) then Live else Stubbed
  }

  /** `oauth.getRedirect(type)`. */
  function GetRedirect(ctx: ApiContext, b: Browser, kind: string): (st: Step<Value>)
    ensures !(ctx.Ready? && Truthy(ctx.user)) ==> st == NoRequest(Null)
    ensures ctx.Ready? && Truthy(ctx.user) ==>
      AnswersWithData(b, HttpRequest("/api/connections/" + kind + "/authentication/redirect", GET, None), st, Null)
  {
    if UseConnections(ctx).Stubbed? then NoRequest(Null)
    else
      var endpoint := "/connections/" + kind + "/authentication/redirect";
      assert "/api" + "/connections/" == "/api/connections/";
      PathUnderApi(b, endpoint, None, JsonEncoded);
      assert "/api" + endpoint == "/api/connections/" + kind + "/authentication/redirect";
      SendAnswersWithData(b, endpoint, None, JsonEncoded, Null);
      DataOr(CallRequest(UseApiRequest(ctx), b, endpoint, None), Null)
  }

  /** `oauth.authenticate(type, options)`: the callback's parameters are
      sent as the JSON body, unchanged. */
  function Authenticate(ctx: ApiContext, b: Browser, kind: string, params: seq<(string, Value)>): (st: Step<Value>)
    ensures !(ctx.Ready? && Truthy(ctx.user)) ==> st == NoRequest(Null)
    ensures ctx.Ready? && Truthy(ctx.user) ==>
      AnswersWithData(b, HttpRequest("/api/connections/" + kind + "/authentication/", POST, Some(JsonText(b.stringify(Obj(params))))), st, Null)
  {
    if UseConnections(ctx).Stubbed? then NoRequest(Null)
    else
      var endpoint := "/connections/" + kind + "/authentication/";
      assert "/api" + "/connections/" == "/api/connections/";
      PathUnderApi(b, endpoint, WithBody(POST, Obj(params)), JsonEncoded);
      assert "/api" + endpoint == "/api/connections/" + kind + "/authentication/";
      SendAnswersWithData(b, endpoint, WithBody(POST, Obj(params)), JsonEncoded, Null);
      DataOr(CallRequest(UseApiRequest(ctx), b, endpoint, WithBody(POST, Obj(params))), Null)
  }

  /** `oauth.getConnections()`: `[]` when gated off, but `null` when the
      request fails. */
  function GetConnections(ctx: ApiContext, b: Browser): (st: Step<Value>)
    ensures !(ctx.Ready? && Truthy(ctx.user)) ==> st == NoRequest(Arr([]))
    ensures ctx.Ready? && Truthy(ctx.user) ==>
      AnswersWithData(b, HttpRequest("/api/connections", GET, None), st, Null)
  {
    if UseConnections(ctx).Stubbed? then NoRequest(Arr([]))
    else
      assert "/api" + "/connections" == "/api/connections";
      SendAnswersWithData(b, "/connections", None, JsonEncoded, Null);
      DataOr(CallRequest(UseApiRequest(ctx), b, "/connections", None), Null)
  }

  /** `operation.getConnection(id)`. */
  function GetConnection(ctx: ApiContext, b: Browser, id: string): (st: Step<Value>)
    ensures !(ctx.Ready? && Truthy(ctx.user)) ==> st == NoRequest(Null)
    ensures ctx.Ready? && Truthy(ctx.user) ==>
      AnswersWithData(b, HttpRequest("/api/connections/" + id, GET, None), st, Null)
  {
    if UseConnections(ctx).Stubbed? then NoRequest(Null)
    else
      assert "/api" + "/connections/" == "/api/connections/";
      PathUnderApi(b, "/connections/" + id, None, JsonEncoded);
      assert "/api" + ("/connections/" + id) == "/api/connections/" + id;
      SendAnswersWithData(b, "/connections/" + id, None, JsonEncoded, Null);
      DataOr(CallRequest(UseApiRequest(ctx), b, "/connections/" + id, None), Null)
  }

  /** `operation.deleteConnection(id)`: true exactly when the DELETE succeeds. */
  function DeleteConnection(ctx: ApiContext, b: Browser, id: string): (st: Step<Value>)
    ensures !(ctx.Ready? && Truthy(ctx.user)) ==> st == NoRequest(Bool(false))
    ensures ctx.Ready? && Truthy(ctx.user) ==>
      AnswersWithFlag(b, HttpRequest("/api/connections/" + id, DELETE, None), st)
  {
    if UseConnections(ctx).Stubbed? then NoRequest(Bool(false))
    else
      assert "/api" + "/connections/" == "/api/connections/";
      PathUnderApi(b, "/connections/" + id, WithMethod(DELETE), JsonEncoded);
      assert "/api" + ("/connections/" + id) == "/api/connections/" + id;
      SendAnswersWithFlag(b, "/connections/" + id, WithMethod(DELETE));
      SuccessFlag(CallRequest(UseApiRequest(ctx), b, "/connections/" + id, WithMethod(DELETE)))
  }

  /** Listing collapses differently by cause: gated off gives `[]`, a failed
      request gives `null`. */
  lemma ListingFallbacksDiffer(ctx: ApiContext, b: Browser)
    requires ctx.Ready? && Truthy(ctx.user)
    requires b.fetch(HttpRequest("/api/connections", GET, None)).Response?
    requires !IsOk(b.fetch(HttpRequest("/api/connections", GET, None)).status)
    ensures GetConnections(ctx, b).outcome == Fulfilled(Null)
    ensures GetConnections(Initializing, b).outcome == Fulfilled(Arr([]))
  {
  }
}
