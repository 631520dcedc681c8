/** The shapes shared by the client API layer (`common.ts`): request
    options, the tagged response, the context value and its default, plus
    the browser primitives the layer calls and the trace of requests it
    issues. */
module ApiCommon {
  import opened Wrappers
  import opened JsValue

  datatype Method = GET | DELETE | POST | PUT | PATCH

  /** The methods `isBodyMethod` accepts, in the order the source lists them. */
  const BodyMethods: seq<Method> := [POST, PUT, PATCH]

  /** `RequestQueryValue`: a scalar or an array of scalars. */
  datatype Scalar = Text(s: string) | Number(n: int) | Flag(b: bool)
  datatype QueryValue = One(v: Scalar) | Many(vs: seq<Scalar>)
  type Query = seq<(string, QueryValue)>

  /** `Partial<RequestOptionsType>`: every field may be missing; a missing
      body is `undefined`. */
  datatype RequestOptions = RequestOptions(verb: Option<Method>, query: Option<Query>, body: Value)

  /** `isBodyMethod(obj)`: options are present, name a method, and that
      method is one of POST, PUT and PATCH. */
  function IsBodyMethod(options: Option<RequestOptions>): (r: bool)
    ensures r <==> options.Some? && options.value.verb.Some? && options.value.verb.value !in {GET, DELETE}
  {
    && options.Some? && options.value.verb.Some?
    && var m := options.value.verb.value;
       assert m.GET? || m.DELETE? || m.POST? || m.PUT? || m.PATCH?;
       m in BodyMethods
  }

  /** `ApiResponse`: only a failure carries the HTTP status code. */
  datatype ApiResponse = Success(data: Value) | Failure(data: Value, code: int)

  /** `ApiContextType`. The `ready` variant's `request` and `reload` are the
      provider's bound functions; they are reached through the accessors
      of `ApiHooks` rather than stored here. */
  datatype ApiContext =
    | Ready(session: Value, user: Value)
    | Initializing
    | Error(reason: Value)

  /** The context seen by a component rendered outside any provider. */
  const DefaultContext: ApiContext := Error(Str("Context not initialized."))

  /** Whether a namespace hands out its real methods or its stubs. */
  datatype Binding = Live | Stubbed

  /** What the body of a `fetch` call is: JSON text, or a browser object
      (a `FormData`) passed through as is. */
  datatype Payload = JsonText(text: string) | RawBody(value: Value)

  /** One call to `fetch`, after path, method and body have been resolved. */
  datatype HttpRequest = HttpRequest(path: string, verb: Method, body: Option<Payload>)

  /** What `fetch` plus `response.text()` produce: a status and the body
      text, or a rejected promise. */
  datatype FetchResult = Response(status: int, text: string) | NetworkFailure

  /** The browser primitives the layer calls, left uninterpreted:
      `fetch`, `JSON.parse` (failure is `None`), `JSON.stringify` and the
      application/x-www-form-urlencoded serializer behind `URLSearchParams`. */
  datatype Browser = Browser(
    fetch: HttpRequest -> FetchResult,
    parse: string -> Option<Value>,
    stringify: Value -> string,
    encodeQuery: Query -> string)

  /** How an awaited promise settles. */
  datatype Settled<+T> = Fulfilled(value: T) | Rejected

  /** One asynchronous call run to completion: how it settled and the
      requests it issued, in order. */
  datatype Step<+T> = Step(outcome: Settled<T>, issued: seq<HttpRequest>)

  /** The Fetch Standard's ok status: 200 to 299. */
  predicate IsOk(status: int) {
    200 <= status <= 299
  }

  /** A `Step` that settles at once with `neutral` and issues nothing. */
  function NoRequest(neutral: Value): (st: Step<Value>)
    ensures st.issued == [] && st.outcome == Fulfilled(neutral)
  {
    Step(Fulfilled(neutral), [])
  }
}
