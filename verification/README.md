# Subtask: API session layer and server domain rules, in Dafny

Subtask is a project-management web application. It has a React client and
a Python (Litestar, Beanie/MongoDB, Redis, GridFS) server. This project
models two parts of it as pure functions over immutable values and proves
properties about them:

* **The client's API layer.** This is `subtask_client/src/util/api/`.
  * Request resolution: path, query, method and body.
  * Response tagging into `ApiResponse`.
  * The provider's `(session, error)` state, and the context status derived from it.
  * The accessor hooks and their stubs for a context that is not ready.
  * The four request namespaces: `userAuth`, `user`, `connections` and `projects`. Each has its own gate and its own failure values.
* **The server's domain rules.** These are in `subtask_api/`.
  * `data:` URI parsing and file naming for GridFS uploads.
  * Project permissions and project ownership.
  * The project membership gate, and project creation and listing.
  * Account creation, login, and password verification and change.
  * The redacted and expanded forms of users, connections and sessions.

## How the model is built

* **JavaScript values.** `JsValue.Value` is an untyped JSON value, extended with files and form data. `Truthy` is JavaScript truthiness. Every `x ? … : …` and `&&` in the client tests truthiness, so the model tests it too.
* **Browser primitives.** `fetch`, `JSON.parse`, `JSON.stringify` and `URLSearchParams` serialisation are uninterpreted functions, carried in `ApiCommon.Browser`.
  * A `fetch` call may reject, modelled as `NetworkFailure`.
  * `JSON.parse` returns `None` when it would throw.
* **Request traces.** Every client operation returns a `Step`. A `Step` holds the settled promise (`Fulfilled` or `Rejected`) and the trace of HTTP requests it issued. "No request" is therefore a checkable `issued == []`.
* **Asynchronous calls.** Each async function is one sequential step. The provider's `reload` returns a `Transition` carrying the new `(session, error)` state.
* **Server primitives.** `mimetypes.guess_extension`, `base64.b64decode`, `str.encode` and PBKDF2-HMAC-SHA256 are deterministic functions in `ServerRuntime.Primitives`.
* **Hex encoding.** `bytes.hex()` and `bytes.fromhex` are modelled exactly, in `Hex`. So "a user created with password p verifies p" is a real round trip through the stored salt.
* **Random values and the clock.** `token_urlsafe`, `os.urandom` and `datetime.now` are parameters.
* **Storage.** The stores are values in `Storage.Db`:
  * Collections are sequences in storage order.
  * A document `save()` replaces the document with the same id, or appends one.
  * The session store is a map from session id.

## Model

| member | source | states |
|---|---|---|
| `ApiCommon.IsBodyMethod` | subtask_client/src/util/api/common.ts:34-36 | true exactly for POST, PUT and PATCH; false for GET, for DELETE, and when the options or their method are missing |
| `ApiProvider.ResolvePath` | subtask_client/src/util/api/ApiProvider.tsx:23-29 | the path is `/api/` followed by the endpoint with one leading `/` removed; `?` plus the serialised query is appended iff a query is given |
| `ApiProvider.ResolveMethod` | subtask_client/src/util/api/ApiProvider.tsx:30 | the method is the given one, or GET when the options or the method are absent |
| `ApiProvider.ResolveBody` | subtask_client/src/util/api/ApiProvider.tsx:31-37 | a body is sent iff the method is POST/PUT/PATCH and the body is truthy; GET and DELETE never carry one; it is the JSON text of the body |
| `ApiProvider.Decode` | subtask_client/src/util/api/ApiProvider.tsx:41-51 | the data is the parsed JSON, or the raw text when parsing fails |
| `ApiProvider.TagResponse` | subtask_client/src/util/api/ApiProvider.tsx:40-66 | success iff the status is 200–299; a failure carries `code` equal to the HTTP status; the data is the parse result or the raw text in both cases |
| `ApiProvider.Send` | subtask_client/src/util/api/ApiProvider.tsx:18-69 | exactly one request, the resolved one, is issued; the call rejects iff `fetch` rejects, and otherwise yields the tagged response |
| `ApiProvider.ContextOf` | subtask_client/src/util/api/ApiProvider.tsx:86-99 | `error` iff the error is truthy (which takes precedence), else `ready` with `user = session.user` iff the session is truthy, else `initializing` |
| `ApiProvider.Reload` | subtask_client/src/util/api/ApiProvider.tsx:70-79 | issues only the `GET /api/` probe; success sets the session to the data and clears the error; failure clears the session and sets the error to the data; a rejected probe changes nothing |
| `ApiProvider.LeadingSlashOptional` | subtask_client/src/util/api/ApiProvider.tsx:23-25 | an endpoint with and without its leading slash resolves to the same path |
| `ApiProvider.SecondSlashSurvives` | subtask_client/src/util/api/ApiProvider.tsx:23-25 | only one leading slash is stripped: `//x` becomes `/api//x` |
| `ApiProvider.ParsingNeverFlipsTag` | subtask_client/src/util/api/ApiProvider.tsx:40-66 | whether the body parses never changes the success tag |
| `ApiProvider.InitialStateIsInitializing` | subtask_client/src/util/api/ApiProvider.tsx:16-17 | the initial `(null, null)` state publishes `initializing` |
| `ApiProvider.ReloadPublishes` | subtask_client/src/util/api/ApiProvider.tsx:70-99 | after a settled probe the status is `ready` iff ok with truthy data, `error` iff not ok with truthy data, and `initializing` iff the data is falsy |
| `ApiProvider.EmptyFailedProbeGivesInitializing` | subtask_client/src/util/api/ApiProvider.tsx:75-78 | from any prior state, `ready` included, a failed probe with an empty, unparsable body ends in `initializing`, because the session is cleared and an empty error string counts as no error |
| `ApiHooks.UseApiStatus` | subtask_client/src/util/api/index.ts:12-14 | the status is the name of the context's variant |
| `ApiHooks.UseApiError` | subtask_client/src/util/api/index.ts:16-19 | the reason iff the status is `error`, else null |
| `ApiHooks.UseSession` | subtask_client/src/util/api/index.ts:21-28 | the session iff the status is `ready`, else null |
| `ApiHooks.UseUser` | subtask_client/src/util/api/index.ts:30-37 | non-null iff the status is `ready` and the user is truthy |
| `ApiHooks.UseApiRequest` | subtask_client/src/util/api/index.ts:39-46 | the real request function iff the status is `ready`, else the stub |
| `ApiHooks.CallRequest` | subtask_client/src/util/api/index.ts:39-46 | the stub resolves to `{success:false, data:null, code:0}` with no request; the real function sends the JSON request |
| `ApiHooks.UseApiReload` | subtask_client/src/util/api/index.ts:48-55 | the real reload iff the status is `ready`, else the no-op |
| `ApiHooks.CallReload` | subtask_client/src/util/api/index.ts:48-55 | the no-op resolves, issues nothing and leaves the state unchanged |
| `ApiHooks.DefaultContextAccessors` | subtask_client/src/util/api/common.ts:59-62 | without a provider the status is `error` with reason "Context not initialized.", and there is no session and no user |
| `ApiHooks.NotReadyIsInert` | subtask_client/src/util/api/index.ts:39-55 | in a context that is not ready, the request accessor fails with code 0 and reload does nothing; neither issues a request |
| `ApiHooks.ProviderAccessors` | subtask_client/src/util/api/index.ts:16-37 | over the provider's state, an error hides the session, and a user is reported only for a ready context with a truthy `session.user` |
| `ApiMethods.UseApiMethods` | subtask_client/src/util/api/index.ts:57-64 | exposes exactly `userAuth` (live iff ready) and `connections` (live iff ready with a user) |
| `ApiMethods.GatesDiffer` | subtask_client/src/util/api/index.ts:57-64 | a ready context without a user has `userAuth` live and `connections` stubbed |
| `ApiMethods.ConnectionsImpliesAuth` | subtask_client/src/util/api/index.ts:57-64 | whenever `connections` is live, so is `userAuth` |
| `NamespaceSupport.DataOr` | subtask_client/src/util/api/namespaces/connections.ts:14-18 | a successful response gives its data, a failed one the namespace's fallback; a rejection propagates |
| `NamespaceSupport.SuccessFlag` | subtask_client/src/util/api/namespaces/connections.ts:69-73 | true iff the response succeeded; a rejection propagates |
| `NamespaceSupport.PathUnderApi` | subtask_client/src/util/api/ApiProvider.tsx:23-29 | an endpoint starting with `/` and sent without a query is requested at `/api` plus the endpoint |
| `ConnectionsNamespace.UseConnections` | subtask_client/src/util/api/namespaces/connections.ts:78-101 | the real methods iff the status is `ready` and the user is truthy |
| `ConnectionsNamespace.GetRedirect` | subtask_client/src/util/api/namespaces/connections.ts:9-21 | gated off: null and no request; otherwise one GET `/api/connections/{type}/authentication/redirect` giving the data, or null on failure |
| `ConnectionsNamespace.Authenticate` | subtask_client/src/util/api/namespaces/connections.ts:23-39 | gated off: null and no request; otherwise one POST to `/api/connections/{type}/authentication/` whose JSON body is the given options, giving the data or null |
| `ConnectionsNamespace.GetConnections` | subtask_client/src/util/api/namespaces/connections.ts:41-48 | gated off: `[]` and no request; otherwise one GET `/api/connections` giving the data, or null (not `[]`) on failure |
| `ConnectionsNamespace.GetConnection` | subtask_client/src/util/api/namespaces/connections.ts:50-62 | gated off: null and no request; otherwise one GET `/api/connections/{id}` giving the data or null |
| `ConnectionsNamespace.DeleteConnection` | subtask_client/src/util/api/namespaces/connections.ts:64-76 | gated off: false and no request; otherwise one DELETE `/api/connections/{id}`, true iff it succeeded |
| `ConnectionsNamespace.ListingFallbacksDiffer` | subtask_client/src/util/api/namespaces/connections.ts:41-48 | the listing's two fallbacks differ: `[]` when gated off, null when the server fails |
| `ProjectsNamespace.UseProjects` | subtask_client/src/util/api/namespaces/project.ts:38-52 | the real methods iff the status is `ready` and the user is truthy |
| `ProjectsNamespace.Create` | subtask_client/src/util/api/namespaces/project.ts:9-27 | gated off: null and no request; otherwise one POST `/api/projects` with the data as JSON body, giving the data or null |
| `ProjectsNamespace.List` | subtask_client/src/util/api/namespaces/project.ts:29-36 | gated off: `[]` and no request; otherwise one GET `/api/projects` giving the data, or `[]` on failure |
| `ProjectsNamespace.ListNullOnlyFromServer` | subtask_client/src/util/api/namespaces/project.ts:29-36 | the listing yields null only when the server answered ok with the JSON text `null` |
| `UserNamespace.RequestFile` | subtask_client/src/util/api/namespaces/user.ts:14-65 | the same path, query, method and tagging as `request`, but a body-method body is passed through unchanged, without JSON encoding |
| `UserNamespace.RequestFileWithoutBodyIsRequest` | subtask_client/src/util/api/namespaces/user.ts:19-33 | without a body, `requestFile` and `request` issue the same request and give the same result |
| `UserNamespace.UseSelf` | subtask_client/src/util/api/namespaces/user.ts:134-154 | the real methods iff the status is `ready`, even when the user is null |
| `UserNamespace.GetSelf` | subtask_client/src/util/api/namespaces/user.ts:67-74 | gated off: null and no request; otherwise one GET `/api/user/self` giving the data or null |
| `UserNamespace.UpdateSetting` | subtask_client/src/util/api/namespaces/user.ts:76-104 | gated off: null and no request; otherwise one POST to the setting's path, with the single query field and no body, giving the data or null |
| `UserNamespace.UpdateUsername` | subtask_client/src/util/api/namespaces/user.ts:76-89 | one POST `/api/user/self/settings/username?` plus the serialised `{username}`, no body |
| `UserNamespace.UpdateDisplayName` | subtask_client/src/util/api/namespaces/user.ts:91-104 | one POST `/api/user/self/settings/display_name?` plus the serialised `{display_name}`, no body |
| `UserNamespace.UpdateAvatar` | subtask_client/src/util/api/namespaces/user.ts:106-121 | one POST `/api/user/self/settings/avatar` whose raw body is a form holding only the field `file`, giving the data or null |
| `UserNamespace.ClearAvatar` | subtask_client/src/util/api/namespaces/user.ts:123-132 | gated off: false and no request; otherwise one DELETE `/api/user/self/settings/avatar`, true iff it succeeded |
| `UserAuthNamespace.UseUserAuth` | subtask_client/src/util/api/namespaces/userAuth.ts:54-66 | the real methods iff the status is `ready`, so a signed-out visitor can log in |
| `UserAuthNamespace.Authenticate` | subtask_client/src/util/api/namespaces/userAuth.ts:10-52 | a live call sends one JSON POST; on success it then runs `reload` and keeps its state; on failure it returns null or false without reloading |
| `UserAuthNamespace.Create` | subtask_client/src/util/api/namespaces/userAuth.ts:10-24 | not ready: null, no request, no state change; ready: POST `/api/user/auth/create` with `{username, displayName, password}`, and a reload after success |
| `UserAuthNamespace.Login` | subtask_client/src/util/api/namespaces/userAuth.ts:26-40 | not ready: null, no request; ready: POST `/api/user/auth/login` with `{username, password}`, and a reload after success |
| `UserAuthNamespace.Logout` | subtask_client/src/util/api/namespaces/userAuth.ts:42-52 | not ready: null (not false), no request; ready: a body-less POST `/api/user/auth/logout`, true plus a reload on success, false otherwise |
| `UserAuthNamespace.LoginWhileSignedOut` | subtask_client/src/util/api/namespaces/userAuth.ts:26-40 | for every ok answer to the login request, the login request and then the probe are issued, and the provider ends in the state the reload produced |
| `GridFiles.DataUriMatcherCorrect` | subtask_api/models/grid_file.py:59 | a direct scan accepts exactly the strings the pattern fully matches; `.` excludes newlines, and the optional group may contain commas |
| `GridFiles.ParseDataUri` | subtask_api/models/grid_file.py:59-76 | rejected with ValueError "Invalid data URI `…`" iff the pattern does not match; otherwise the URI is split at its first comma; the media type is the first `;`-segment, or `text/plain` when that is empty; base64 iff the second segment is exactly `base64` |
| `GridFiles.SecondSegment` | subtask_api/models/grid_file.py:64-76 | the second `;`-segment is `base64` iff `;base64` directly follows the first segment and is followed by `;` or the end |
| `GridFiles.MediaTypeIsOneSegment` | subtask_api/models/grid_file.py:63-75 | the media type is never empty and never contains `;` |
| `GridFiles.MediaTypeIsFirstSegment` | subtask_api/models/grid_file.py:63-75 | the media type is the text up to the first `;`, or `text/plain` when the header info is empty or starts with `;` |
| `GridFiles.PayloadKeepsCommas` | subtask_api/models/grid_file.py:62 | an accepted URI splits at its first comma only, so the payload keeps all later commas |
| `GridFiles.SlashAfterFirstComma` | subtask_api/models/grid_file.py:59-63 | a slash in the payload before a later comma makes any comma-free header acceptable, and the media type is still read from that header |
| `GridFiles.WithoutSlash` | subtask_api/models/grid_file.py:59 | a URI with no slash is accepted iff it starts with `data:,` or `data:;base64,` and has no newline |
| `GridFiles.NewlineRejected` | subtask_api/models/grid_file.py:59-60 | any newline makes the URI invalid |
| `GridFiles.Create` | subtask_api/models/grid_file.py:21-53 | the name defaults to none and the type to `application/octet-stream`; a non-empty given name is kept, otherwise `file_<id><ext>` with `.bin` when no extension is guessed; record and blob share the id; owner metadata is `<collection>:<id>` |
| `GridFiles.CreateFromDataUrl` | subtask_api/models/grid_file.py:55-99 | parse errors pass through; an undecodable base64 payload raises; otherwise the content is the decoded payload (or its UTF-8 bytes), the file type is the media type, the name is generated from it, and the blob is stored under the record's id and name |
| `GridFiles.DataUrlUploadIsCreate` | subtask_api/models/grid_file.py:78-99 | a successful data-URL upload stores exactly what the plain upload stores for the decoded payload, with no name and the parsed media type |
| `Hex.FromHexToHex` | subtask_api/models/user.py:26-36 | reading back the hex text of any byte string gives that byte string |
| `Hex.ToHexInjective` | subtask_api/models/user.py:26-38 | distinct digests have distinct hex texts |
| `Seqs.JoinSplit` | subtask_api/models/grid_file.py:64 | joining the pieces of `str.split` with the separator gives the text back |
| `Seqs.Split` | subtask_api/models/grid_file.py:64 | at least one piece; no piece holds the separator; the first piece runs to the first separator; a single piece iff there is no separator |
| `Projects.PermissionOf` | subtask_api/models/project_types/project.py:8-15 | a value converts to a permission iff it is 0–4, and the permission has that value |
| `Projects.PermissionRoundTrip` | subtask_api/models/project_types/project.py:8-15 | the five permissions have distinct values OWNER=0 … VIEW=4 |
| `Projects.ParseGrant` | subtask_api/models/project_types/project.py:18-23 | a grant is read back iff the text is `owner`, `direct` or `invite` |
| `Projects.NewMember` | subtask_api/models/project_types/project.py:26-30 | a member defaults to VIEW permission, DIRECT grant and no invite id |
| `Projects.PermissionMonotone` | subtask_api/models/project_types/project.py:35-36 | holding permission p implies holding every q ≥ p |
| `Projects.OwnerHasAll` | subtask_api/models/project_types/project.py:35-36 | an OWNER member has every permission |
| `Projects.ViewerHasOnlyView` | subtask_api/models/project_types/project.py:35-36 | a VIEW member has VIEW and nothing else |
| `Projects.NewMemberOnlyViews` | subtask_api/models/project_types/project.py:26-36 | a defaulted member can only view |
| `Projects.OwnerMember` | subtask_api/models/project_types/project.py:54-60 | the first member in list order with owner permission, or none iff there is no such member |
| `Projects.ProjectOwner` | subtask_api/models/project_types/project.py:32-63 | the stored user whose id is the first owner member's, or none when there is no owner member or no such user |
| `ProjectController.CreationWithName` | subtask_api/controllers/project.py:19-23 | payload defaults: summary `""`, no image, no connection |
| `ProjectController.ProvideProject` | subtask_api/controllers/project.py:26-30 | succeeds iff the project exists and the user's id is a member's user id; otherwise NotFound "Project `{id}` not found or not accessible." |
| `ProjectController.CreatorMembers` | subtask_api/controllers/project.py:56-62 | exactly one member: the creator, with OWNER permission and OWNER grant |
| `ProjectController.CreateProjectWith` | subtask_api/controllers/project.py:38-65 | an image that fails to parse or decode gives ClientError "Invalid data URI" and writes nothing; otherwise the image is `/files/{file id}` (or none without an image) and the saved project has the payload's fields and the creator as sole owner |
| `ProjectController.CreateProjectAsWritten` | subtask_api/controllers/project.py:38-65 | the project gets the generated document id, while its image is owned by the separately drawn token |
| `ProjectController.ImageOwnerIsNotTheProject` | subtask_api/controllers/project.py:40-51 | with two distinct tokens, the stored image's owner id is not the new project's id |
| `ProjectController.CreateProject` | subtask_api/controllers/project.py:38-65 | the corrected creation: the project is saved under the drawn id, and its image is owned by that same id in the `projects` collection |
| `ProjectController.CreateFailsOnlyOnImage` | subtask_api/controllers/project.py:41-47 | for any image owner id, creation fails iff an image is given and does not parse or decode, and the failure is the `Invalid data URI` client error with no store returned |
| `ProjectController.GetProjects` | subtask_api/controllers/project.py:67-69 | exactly the stored projects with the user among their members |
| `ProjectController.CreatorCanOpen` | subtask_api/controllers/project.py:26-69 | for any image owner id, the creator passes the membership gate for the new project's id and finds it in the listing |
| `ProjectController.AsWrittenCreatorCanOpen` | subtask_api/controllers/project.py:26-69 | for creation as written: it fails iff the image is unacceptable, and otherwise the creator opens the project under its generated id and finds it in the listing |
| `ProjectController.CorrectedCreatorCanOpen` | subtask_api/controllers/project.py:26-69 | the same two facts for the corrected creation, under the drawn id |
| `UserController.CreateUserAfterCheck` | subtask_api/controllers/user.py:27-34 | refused with MethodNotAllowed iff the check fires; otherwise the created user verifies its password, is stored, and the caller's session is bound to it and stored |
| `UserController.CreateUserAsWritten` | subtask_api/controllers/user.py:24-34 | every sign-up is refused with "The desired username already exists" |
| `UserController.CreateUserIntended` | subtask_api/controllers/user.py:24-34 | the corrected sign-up: refused iff a stored user has the username; otherwise the account is stored, accepts its password, and the session is bound to it |
| `UserController.LoginUser` | subtask_api/controllers/user.py:36-49 | only the first user with the username is tried; an unknown username and a wrong password give the same NotFound; success binds and stores the session and returns that user |
| `UserController.LoginBindsSession` | subtask_api/controllers/user.py:47-49 | after a login, with unique user ids, the stored session expands to the signed-in user |
| `UserController.SignUpThenLogin` | subtask_api/controllers/user.py:24-49 | after a corrected sign-up, logging in with the same username and password succeeds and yields the new account |
| `Users.Verify` | subtask_api/models/user.py:34-38 | true iff hashing the attempt with the stored salt gives the stored hash; a salt that is not hex raises |
| `Users.CreateUser` | subtask_api/models/user.py:23-32 | username and display name are stored unchanged, the salt is stored as hex, and the account accepts its password |
| `Users.ChangePassword` | subtask_api/models/user.py:40-47 | a wrong old password raises ValueError "Incorrect passphrase supplied" and changes nothing; otherwise the new password is accepted and the rest of the record is kept |
| `Users.Redact` | subtask_api/models/user.py:49-52 | keeps exactly the id, username and display name |
| `Users.RedactIgnoresPassword` | subtask_api/models/user.py:40-52 | a password change does not change the redacted form |
| `Users.OldPasswordRefused` | subtask_api/models/user.py:34-47 | after a change, the old password is refused unless it hashes like the new one under the new salt |
| `Connections.ParseConnectionType` | subtask_api/models/connection.py:11-19 | the connection type is accepted iff it is exactly `github` |
| `Connections.NewConnection` | subtask_api/models/connection.py:17-25 | account name and image default to none; the required fields, tokens and expiry times included, are kept |
| `Connections.Redact` | subtask_api/models/connection.py:30-37 | keeps the id, user id, type, account name and account image |
| `Connections.RedactHidesTokens` | subtask_api/models/connection.py:8-37 | tokens and expiry times never influence the redacted form |
| `Sessions.CreateSession` | subtask_api/models/session.py:20-23 | creation and access time are both the current time, and no user is set |
| `Sessions.Expand` | subtask_api/models/session.py:25-32 | id and times are copied; the user is present iff the session names a non-empty user id that is found, and it is that user's redacted form |
| `Sessions.NewSessionIsAnonymous` | subtask_api/models/session.py:20-32 | a new session expands to no user |
| `Storage.SaveUser` | subtask_api/controllers/user.py:31 | a saved user is found by its id; users with other ids are kept; other stores are untouched |
| `Storage.SaveProject` | subtask_api/controllers/project.py:64 | a saved project is found by its id; projects with other ids are kept; other stores are untouched |
| `Storage.StoreSession` | subtask_api/controllers/user.py:33-48 | the session is stored under its own id; every other stored session is kept |

## Behaviour worth knowing

* **Rejected `fetch`.** When `fetch` rejects, the request promise rejects too, and so do `reload` and every namespace method built on it. No error status is set, and the provider's state stays as it was (`ApiProvider.Send`, `ApiProvider.Reload`).
* **Failed probe with a falsy body.** When the probe fails with an empty or otherwise falsy body, the session is cleared and `error` is falsy, so the status becomes `initializing`, even from `ready` (`ApiProvider.EmptyFailedProbeGivesInitializing`).
* **`meta.list` can return null.** The project listing turns a failed request into `[]` but passes through whatever data an ok response carries. So it returns `null` when the server answers with the JSON `null` (`ProjectsNamespace.ListNullOnlyFromServer`).

## Left out

- React rendering and hook wiring (`useContext`, `useCallback`, `useState`, `useEffect`): the context and provider state are explicit parameters. The mount-time `reload` (subtask_client/src/util/api/ApiProvider.tsx:81-83) is `Reload` applied to `InitialState`.
- Concurrent or interleaved `reload`s and promise scheduling: each async function is one sequential step.
- `fetch`, `JSON.parse`, `JSON.stringify`, `URLSearchParams`, `FormData`, `File`: uninterpreted functions or opaque values. Numbers are integers (JSON floats and NaN are not modelled).
- Server state seen by the client: within one `ApiCommon.Browser`, `fetch` is one fixed function, so the modelled server is stateless and identical requests get identical answers. In particular, the probe that follows a successful login (`UserAuthNamespace.LoginWhileSignedOut`) answers as it did before the login; the model does not show the login changing what `/api/` returns.
- PBKDF2-HMAC-SHA256, `base64.b64decode`, `mimetypes.guess_extension`, `str.encode`: uninterpreted deterministic functions. `str.encode` is total here, so the `UnicodeEncodeError` (a `ValueError`) that Python raises on a lone surrogate is not modelled; in `create_project` it would become the same "Invalid data URI" client error as a malformed image. The messages of the errors that `b64decode` and `bytes.fromhex` raise are not modelled (`DecodeError`, `MalformedHex`).
- `token_urlsafe`, `os.urandom`, `datetime.now`: their results are parameters.
- Beanie, Redis, and GridFS I/O: the stores are values in `Storage.Db`.
  - `from_query` is a filter in storage order.
  - `from_id` is the first document with that id.
  - Session expiry and key namespacing are not modelled.
- `GridFile.get_content` and `GridFile.delete` (subtask_api/models/grid_file.py:101-114): streaming and deletion of stored bytes, which is storage plumbing with no decision in it.
- `SingleProjectController.get_project` (subtask_api/controllers/project.py:77-79) returns the provided project unchanged; `ProvideProject` models all of it.
- The login guard and `provide_user`, which are not part of this model: every controller function takes the signed-in user as given.
- `Hex.ToHex`: its contract states only the length; that its digits are lower-case hex that `bytes.fromhex` reads back is stated by `Hex.FromHexToHex`.

## Findings

| source | as written | input that shows it | evidently intended | confidence | as-written member | corrected member |
|---|---|---|---|---|---|---|
| subtask_api/controllers/user.py:27-28 | the duplicate-username test is `len(existing) >= 0`, true for every list, so every sign-up raises MethodNotAllowed and no account is ever created | an empty user store and any username, e.g. `alice` | refuse only when some stored user has the username (`len(existing) > 0`) | not executed; high | `UserController.CreateUserAsWritten` | `UserController.CreateUserIntended` |
| subtask_api/controllers/project.py:40-51 | the token drawn as `project_id` is given to the image upload as owner id, but the `Project` is built without `id=project_id` and gets a fresh generated id, so the image's owner never matches the project | any creation with a valid image, e.g. image `data:image/png;base64,QQ==` | the project is saved under `project_id`, the id its image names as owner | not executed; medium | `ProjectController.ImageOwnerIsNotTheProject` | `ProjectController.CreateProject` |
