/** What every resource namespace does with a response: collapse it to the
    data or a fixed fallback, or to a success flag. The predicates state, in
    terms of what `fetch` answers, what a live namespace method promises. */
module NamespaceSupport {
  import opened Wrappers
  import opened JsValue
  import opened ApiCommon
  import opened ApiProvider

  /** `result.success ? result.data : fallback`, with a rejection passed on. */
  function DataOr(st: Step<ApiResponse>, fallback: Value): (r: Step<Value>)
    ensures r.issued == st.issued
    ensures r.outcome.Rejected? <==> st.outcome.Rejected?
    ensures st.outcome.Fulfilled? && st.outcome.value.Success? ==> r.outcome == Fulfilled(st.outcome.value.data)
    ensures st.outcome.Fulfilled? && st.outcome.value.Failure? ==> r.outcome == Fulfilled(fallback)
  {
    match st.outcome
    case Rejected => Step(Rejected, st.issued)
    case Fulfilled(Success(data)) => Step(Fulfilled(data), st.issued)
    case Fulfilled(Failure(_, _)) => Step(Fulfilled(fallback), st.issued)
  }

  /** `result.success ? true : false`, with a rejection passed on. */
  function SuccessFlag(st: Step<ApiResponse>): (r: Step<Value>)
    ensures r.issued == st.issued
    ensures r.outcome.Rejected? <==> st.outcome.Rejected?
    ensures st.outcome.Fulfilled? ==> r.outcome == Fulfilled(Bool(st.outcome.value.Success?))
  {
    match st.outcome
    case Rejected => Step(Rejected, st.issued)
    case Fulfilled(resp) => Step(Fulfilled(Bool(resp.Success?)), st.issued)
  }

  /** A live method that returns data: it issues exactly `req`, rejects when
      `fetch` rejects, and otherwise returns the decoded body on an ok
      status and `fallback` on any other status. */
  predicate AnswersWithData(b: Browser, req: HttpRequest, st: Step<Value>, fallback: Value) {
    && st.issued == [req]
    && match b.fetch(req)
       case NetworkFailure => st.outcome.Rejected?
       case Response(status, text) => st.outcome == Fulfilled(if IsOk(status) then Decode(b, text) else fallback)
  }

  /** A live method that returns a flag: it issues exactly `req`, rejects
      when `fetch` rejects, and otherwise returns whether the status is ok. */
  predicate AnswersWithFlag(b: Browser, req: HttpRequest, st: Step<Value>) {
    && st.issued == [req]
    && match b.fetch(req)
       case NetworkFailure => st.outcome.Rejected?
       case Response(status, _) => st.outcome == Fulfilled(Bool(IsOk(status)))
  }

  lemma SendAnswersWithData(b: Browser, endpoint: string, options: Option<RequestOptions>, encoding: BodyEncoding, fallback: Value)
    ensures AnswersWithData(b, ResolveRequest(b, endpoint, options, encoding), DataOr(Send(b, endpoint, options, encoding), fallback), fallback)
  {
  }

  lemma SendAnswersWithFlag(b: Browser, endpoint: string, options: Option<RequestOptions>)
    ensures AnswersWithFlag(b, ResolveRequest(b, endpoint, options, JsonEncoded), SuccessFlag(Send(b, endpoint, options, JsonEncoded)))
  {
  }

  /** An endpoint with a leading slash and no query resolves to `/api`
      followed by the endpoint. */
  lemma PathUnderApi(b: Browser, endpoint: string, options: Option<RequestOptions>, encoding: BodyEncoding)
    requires StartsWithSlash(endpoint)
    requires options.None? || options.value.query.None?
    ensures ResolveRequest(b, endpoint, options, encoding).path == "/api" + endpoint
  {
  }

  /** Options with a method and a body but no query. */
  function WithBody(verb: Method, body: Value): Option<RequestOptions> {
    Some(RequestOptions(Some(verb), None, body))
  }

  /** Options with a method only. */
  function WithMethod(verb: Method): Option<RequestOptions> {
    Some(RequestOptions(Some(verb), None, Undefined))
  }
}
