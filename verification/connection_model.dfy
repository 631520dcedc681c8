/** A user's link to an outside account: the stored record with its OAuth
    tokens, and the redacted form that leaves the tokens out. */
module Connections {
  import opened Wrappers
  import opened ServerRuntime

  /** The only provider a connection may name. */
  datatype ConnectionType = Github

  function TypeName(t: ConnectionType): string
  {
    match t
    case Github => "github"
  }

  /** The `Literal["github"]` field check: only the exact text is accepted. */
  function ParseConnectionType(s: string): (r: Option<ConnectionType>)
    ensures r.Some? <==> s == "github"
    ensures r.Some? ==> TypeName(r.value) == s
  {
    if s == "github" then Some(Github) else None
  }

  datatype UserConnection = UserConnection(
    id: string,
    userId: string,
    kind: ConnectionType,
    accessToken: string,
    accessExpire: Timestamp,
    refreshToken: string,
    refreshExpire: Timestamp,
    accountName: Option<string>,
    accountImage: Option<string>)

  /** The fields of a connection that may be shown; no token and no expiry. */
  datatype RedactedConnection = RedactedConnection(
    id: string,
    userId: string,
    kind: ConnectionType,
    accountName: Option<string>,
    accountImage: Option<string>)

  /** A connection built from its required fields: the account name and
      image start out absent. */
  function NewConnection(id: string, userId: string, kind: ConnectionType,
                         accessToken: string, accessExpire: Timestamp,
                         refreshToken: string, refreshExpire: Timestamp): (c: UserConnection)
    ensures c.accountName.None? && c.accountImage.None?
    ensures c.id == id && c.userId == userId && c.kind == kind
    ensures c.accessToken == accessToken && c.refreshToken == refreshToken
    ensures c.accessExpire == accessExpire && c.refreshExpire == refreshExpire
  {
    UserConnection(id, userId, kind, accessToken, accessExpire, refreshToken, refreshExpire, None, None)
  }

  /** `UserConnection.redact`. */
  function Redact(c: UserConnection): (r: RedactedConnection)
    ensures r.id == c.id && r.userId == c.userId && r.kind == c.kind
    ensures r.accountName == c.accountName && r.accountImage == c.accountImage
  {
    RedactedConnection(c.id, c.userId, c.kind, c.accountName, c.accountImage)
  }

  /** Tokens and expiry times never reach the redacted form: connections that
      differ only in them redact alike. */
  lemma RedactHidesTokens(c: UserConnection, accessToken: string, accessExpire: Timestamp,
                          refreshToken: string, refreshExpire: Timestamp)
    ensures Redact(c.(accessToken := accessToken, accessExpire := accessExpire,
                      refreshToken := refreshToken, refreshExpire := refreshExpire)) == Redact(c)
  {
  }
}
