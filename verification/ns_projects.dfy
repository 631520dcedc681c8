/** The projects namespace (`namespaces/project.ts`): `meta.create` and
    `meta.list`, handed out only to a ready context with a truthy user. */
module ProjectsNamespace {
  import opened Wrappers
  import opened JsValue
  import opened ApiCommon
  import opened ApiProvider
  import opened ApiHooks
  import opened NamespaceSupport

  /** The gate: `api.status === "ready" && api.user`. */
  function UseProjects(ctx: ApiContext): (ns: Binding)
    ensures ns.Live? <==> ctx.Ready? && Truthy(ctx.user)
  {
    if ctx.Ready? && Truthy(ctx.user) then Live else Stubbed
  }

  /** `meta.create(data)`: POST the creation data as the JSON body. */
  function Create(ctx: ApiContext, b: Browser, data: seq<(string, Value)>): (st: Step<Value>)
    ensures !(ctx.Ready? && Truthy(ctx.user)) ==> st == NoRequest(Null)
    ensures ctx.Ready? && Truthy(ctx.user) ==>
      AnswersWithData(b, HttpRequest("/api/projects", POST, Some(JsonText(b.stringify(Obj(data))))), st, Null)
  {
    if UseProjects(ctx).Stubbed? then NoRequest(Null)
    else
      assert "/api" + "/projects" == "/api/projects";
      SendAnswersWithData(b, "/projects", WithBody(POST, Obj(data)), JsonEncoded, Null);
      DataOr(CallRequest(UseApiRequest(ctx), b, "/projects", WithBody(POST, Obj(data))), Null)
  }

  /** `meta.list()`: `[]` both when gated off and when the request fails. */
  function List(ctx: ApiContext, b: Browser): (st: Step<Value>)
    ensures !(ctx.Ready? && Truthy(ctx.user)) ==> st == NoRequest(Arr([]))
    ensures ctx.Ready? && Truthy(ctx.user) ==>
      AnswersWithData(b, HttpRequest("/api/projects", GET, None), st, Arr([]))
  {
    if UseProjects(ctx).Stubbed? then NoRequest(Arr([]))
    else
      assert "/api" + "/projects" == "/api/projects";
      SendAnswersWithData(b, "/projects", None, JsonEncoded, Arr([]));
      DataOr(CallRequest(UseApiRequest(ctx), b, "/projects", None), Arr([]))
  }

  /** `list` yields `null` only when an ok response's body is itself JSON
      `null`: neither the gate nor a failed request produce it. */
  lemma ListNullOnlyFromServer(ctx: ApiContext, b: Browser)
    requires List(ctx, b).outcome == Fulfilled(Null)
    ensures ctx.Ready? && Truthy(ctx.user)
    ensures b.fetch(HttpRequest("/api/projects", GET, None)).Response?
    ensures IsOk(b.fetch(HttpRequest("/api/projects", GET, None)).status)
    ensures b.parse(b.fetch(HttpRequest("/api/projects", GET, None)).text) == Some(Null)
  {
  }
}
