/** `useApiMethods` (`index.ts`): the namespaces the application reaches
    through the shared hook. Only the authentication and connections
    namespaces are wired in; the user and projects namespaces are reached
    through their own hooks. */
module ApiMethods {
  import opened JsValue
  import opened ApiCommon
  import UserAuthNamespace
  import ConnectionsNamespace

  datatype ApiMethods = ApiMethods(userAuth: Binding, connections: Binding)

  function UseApiMethods(ctx: ApiContext): (m: ApiMethods)
    ensures m.userAuth.Live? <==> ctx.Ready?
    ensures m.connections.Live? <==> ctx.Ready? && Truthy(ctx.user)
  {
    ApiMethods(UserAuthNamespace.UseUserAuth(ctx), ConnectionsNamespace.UseConnections(ctx))
  }

  /** The two gates differ exactly on a ready context without a user: it
      may authenticate but not manage connections. */
  lemma GatesDiffer(ctx: ApiContext)
    ensures UseApiMethods(ctx).userAuth != UseApiMethods(ctx).connections <==> ctx.Ready? && !Truthy(ctx.user)
  {
  }

  /** The connections gate is never open when the authentication gate is closed. */
  lemma ConnectionsImpliesAuth(ctx: ApiContext)
    ensures UseApiMethods(ctx).connections.Live? ==> UseApiMethods(ctx).userAuth.Live?
  {
  }
}
