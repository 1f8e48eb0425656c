/**
 The parts of the HTTP client that decide something before any network
 traffic: the timeout floor of New, the check that a request names a URL and
 a method, and Exchange's rule that a request failing that check is rejected
 before one is built or sent. Durations are Go's time.Duration, a signed
 64-bit count of nanoseconds.
 */
module HttpClient {
  import opened Wrappers

  newtype Duration = d: int | -0x8000_0000_0000_0000 <= d < 0x8000_0000_0000_0000

  const Millisecond: Duration := 1_000_000

  const DefaultBackoffInterval: Duration := 2 * Millisecond
  const DefaultMaxJitterInterval: Duration := 5 * Millisecond
  const DefaultClientTimeOut: Duration := 3000 * Millisecond
  const DefaultRetryCount := 4

  const StatusBadRequest := 400

  /** HttpErr: a status code and a message. */
  datatype HttpErr = HttpErr(status: int, message: string)

  /**
   RequestAttr. The URL is kept as its string form; None stands for a nil
   *url.URL. The field `verb` is Go's Method field, renamed because `method`
   is a keyword in Dafny. The body is not modelled.
   */
  datatype RequestAttr = RequestAttr(
    url: Option<string>,
    verb: string,
    headerMap: map<string, string>,
    timeout: Duration)

  /** The client: only its timeout. */
  datatype C = C(timeOut: Duration)

  /** New: a client whose timeout is the one asked for, but never less than DefaultClientTimeOut. */
  function New(timeOut: Duration): (c: C)
    ensures c.timeOut >= DefaultClientTimeOut
    ensures timeOut >= DefaultClientTimeOut ==> c.timeOut == timeOut
    ensures timeOut < DefaultClientTimeOut ==> c.timeOut == DefaultClientTimeOut
  {
    var c := C(DefaultClientTimeOut);
    if timeOut >= DefaultClientTimeOut then c.(timeOut := timeOut) else c
  }

  /** The larger of two durations. */
  function Max(a: Duration, b: Duration): Duration {
    if a < b then b else a
  }

  /** New's timeout is the larger of the one asked for and the default. */
  lemma NewIsMax(timeOut: Duration)
    ensures New(timeOut).timeOut == Max(timeOut, DefaultClientTimeOut)
  {
  }

  /** New applied to its own timeout gives the same client. */
  lemma NewIdempotent(timeOut: Duration)
    ensures New(New(timeOut).timeOut) == New(timeOut)
  {
  }

  /** validateRequestAttr: a status-400 error unless the request has a URL and a method. */
  function ValidateRequestAttr(attr: RequestAttr): (err: Option<HttpErr>)
    ensures err.None? <==> attr.url.Some? && attr.verb != ""
    ensures err.Some? ==> err.value.status == StatusBadRequest
  {
    if attr.url.None? || attr.verb == "" then
      Some(HttpErr(StatusBadRequest, "URL or method not specified"))
    else None
  }

  /** The request handed to the retrying client: what to send and the policy it is sent under. */
  datatype Dispatch = Dispatch(
    verb: string,
    url: string,
    timeOut: Duration,
    retryCount: nat,
    backoffInterval: Duration,
    maxJitterInterval: Duration)

  /** What Exchange does: reject the request, or dispatch it. */
  datatype ExchangeStep = Rejected(err: HttpErr) | Dispatched(request: Dispatch)

  /**
   The part of Exchange before the network: a request that fails validation
   is rejected with the validation error, and nothing is dispatched; any
   other is dispatched with the client's timeout (not the request's own
   Timeout field), DefaultRetryCount retries and the default constant backoff.
   */
  function Exchange(c: C, attr: RequestAttr): (r: ExchangeStep)
    ensures r.Rejected? <==> ValidateRequestAttr(attr).Some?
    ensures r.Rejected? ==> r.err == ValidateRequestAttr(attr).value
    ensures r.Rejected? ==> r.err.status == StatusBadRequest
    ensures r.Dispatched? ==>
      && attr.url.Some? && attr.verb != ""
      && r.request.url == attr.url.value && r.request.verb == attr.verb
      && r.request.timeOut == c.timeOut
      && r.request.retryCount == DefaultRetryCount
      && r.request.backoffInterval == DefaultBackoffInterval
      && r.request.maxJitterInterval == DefaultMaxJitterInterval
  {
    match ValidateRequestAttr(attr)
    case Some(err) => Rejected(err)
    case None =>
      Dispatched(Dispatch(attr.verb, attr.url.value, c.timeOut, DefaultRetryCount,
                          DefaultBackoffInterval, DefaultMaxJitterInterval))
  }

  /** The request's own Timeout field does not change what Exchange does. */
  lemma ExchangeIgnoresRequestTimeout(c: C, attr: RequestAttr, t: Duration)
    ensures Exchange(c, attr.(timeout := t)) == Exchange(c, attr)
  {
  }
}
