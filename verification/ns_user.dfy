/** The user namespace (`namespaces/user.ts`): reading and editing the
    signed-in user's own record. Its real methods are handed out to any
    ready context, with or without a user; the server decides the rest. */
module UserNamespace {
  import opened Wrappers
  import opened JsValue
  import opened ApiCommon
  import opened ApiProvider
  import opened ApiHooks
  import opened NamespaceSupport

  /** `requestFile`: resolves path, query and method as `request` does but
      hands a body-method's truthy body to `fetch` unchanged, for uploads. */
  function RequestFile(b: Browser, endpoint: string, options: Option<RequestOptions>): (st: Step<ApiResponse>)
    ensures |st.issued| == 1
    ensures st.issued[0].path == Request(b, endpoint, options).issued[0].path
    ensures st.issued[0].verb == Request(b, endpoint, options).issued[0].verb
    ensures st.issued[0].body.Some? <==> Request(b, endpoint, options).issued[0].body.Some?
    ensures st.issued[0].body.Some? ==> st.issued[0].body.value == RawBody(options.value.body)
    ensures st.outcome.Rejected? <==> b.fetch(st.issued[0]).NetworkFailure?
    ensures st.outcome.Fulfilled? ==> st.outcome.value == TagResponse(b, b.fetch(st.issued[0]).status, b.fetch(st.issued[0]).text)
  {
    Send(b, endpoint, options, PassedThrough)
  }

  /** The gate: `api.status === "ready"`. */
  function UseSelf(ctx: ApiContext): (ns: Binding)
    ensures ns.Live? <==> ctx.Ready?
  {
    if ctx.Ready? then Live else Stubbed
  }

  /** `self.get()`. */
  function GetSelf(ctx: ApiContext, b: Browser): (st: Step<Value>)
    ensures !ctx.Ready? ==> st == NoRequest(Null)
    ensures ctx.Ready? ==> AnswersWithData(b, HttpRequest("/api/user/self", GET, None), st, Null)
  {
    if UseSelf(ctx).Stubbed? then NoRequest(Null)
    else
      assert "/api" + "/user/self" == "/api/user/self";
      SendAnswersWithData(b, "/user/self", None, JsonEncoded, Null);
      DataOr(CallRequest(UseApiRequest(ctx), b, "/user/self", None), Null)
  }

  /** The query `{ [name]: value }` of a settings update. */
  function SettingQuery(name: string, value: string): Query {
    [(name, One(Text(value)))]
  }

  /** A settings update: POST with the new value in the query and no body. */
  function UpdateSetting(ctx: ApiContext, b: Browser, name: string, value: string): (st: Step<Value>)
    ensures !ctx.Ready? ==> st == NoRequest(Null)
    ensures ctx.Ready? ==> AnswersWithData(b, HttpRequest("/api/user/self/settings/" + name + "?" + b.encodeQuery(SettingQuery(name, value)), POST, None), st, Null)
  {
    if UseSelf(ctx).Stubbed? then NoRequest(Null)
    else
      var endpoint := "/user/self/settings/" + name;
      var options := Some(RequestOptions(Some(POST), Some(SettingQuery(name, value)), Undefined));
      assert "/api" + "/user/self/settings/" == "/api/user/self/settings/";
      assert "/api" + endpoint == "/api/user/self/settings/" + name;
      SendAnswersWithData(b, endpoint, options, JsonEncoded, Null);
      DataOr(CallRequest(UseApiRequest(ctx), b, endpoint, options), Null)
  }

  /** `self.updateUsername(username)`. */
  function UpdateUsername(ctx: ApiContext, b: Browser, username: string): (st: Step<Value>)
    ensures !ctx.Ready? ==> st == NoRequest(Null)
    ensures ctx.Ready? ==> AnswersWithData(b, HttpRequest("/api/user/self/settings/username?" + b.encodeQuery([("username", One(Text(username)))]), POST, None), st, Null)
  {
    assert "/api/user/self/settings/" + "username" + "?" == "/api/user/self/settings/username?";
    UpdateSetting(ctx, b, "username", username)
  }

  /** `self.updateDisplayName(display_name)`. */
  function UpdateDisplayName(ctx: ApiContext, b: Browser, displayName: string): (st: Step<Value>)
    ensures !ctx.Ready? ==> st == NoRequest(Null)
    ensures ctx.Ready? ==> AnswersWithData(b, HttpRequest("/api/user/self/settings/display_name?" + b.encodeQuery([("display_name", One(Text(displayName)))]), POST, None), st, Null)
  {
    assert "/api/user/self/settings/" + "display_name" + "?" == "/api/user/self/settings/display_name?";
    UpdateSetting(ctx, b, "display_name", displayName)
  }

  /** `self.updateAvatar(file)`: a form with the single field `file`, sent
      through `requestFile` so that the form reaches `fetch` as is. */
  function UpdateAvatar(ctx: ApiContext, b: Browser, file: Value): (st: Step<Value>)
    ensures !ctx.Ready? ==> st == NoRequest(Null)
    ensures ctx.Ready? ==> AnswersWithData(b, HttpRequest("/api/user/self/settings/avatar", POST, Some(RawBody(Form([("file", file)])))), st, Null)
  {
    if UseSelf(ctx).Stubbed? then NoRequest(Null)
    else
      var form := Form([("file", file)]);
      assert "/api" + "/user/self/settings/avatar" == "/api/user/self/settings/avatar";
      SendAnswersWithData(b, "/user/self/settings/avatar", WithBody(POST, form), PassedThrough, Null);
      DataOr(RequestFile(b, "/user/self/settings/avatar", WithBody(POST, form)), Null)
  }

  /** `self.clearAvatar()`: true exactly when the DELETE succeeds. */
  function ClearAvatar(ctx: ApiContext, b: Browser): (st: Step<Value>)
    ensures !ctx.Ready? ==> st == NoRequest(Bool(false))
    ensures ctx.Ready? ==> AnswersWithFlag(b, HttpRequest("/api/user/self/settings/avatar", DELETE, None), st)
  {
    if UseSelf(ctx).Stubbed? then NoRequest(Bool(false))
    else
      assert "/api" + "/user/self/settings/avatar" == "/api/user/self/settings/avatar";
      SendAnswersWithFlag(b, "/user/self/settings/avatar", WithMethod(DELETE));
      SuccessFlag(CallRequest(UseApiRequest(ctx), b, "/user/self/settings/avatar", WithMethod(DELETE)))
  }

  /** When no body is sent the two transports issue the same request and
      settle the same way. */
  lemma RequestFileWithoutBodyIsRequest(b: Browser, endpoint: string, options: Option<RequestOptions>)
    requires !(IsBodyMethod(options) && Truthy(options.value.body))
    ensures RequestFile(b, endpoint, options) == Request(b, endpoint, options)
  {
  }
}
