/**
 * `APIClient`: a client bound to one base URL that sends a request up to
 * `retries` times. Each attempt either ends the call (a response, classified by
 * status and body) or fails in transport, in which case the client waits
 * `2^(attempt-1)` seconds and tries again; when the attempts run out the call
 * raises an exhaustion error.
 *
 * The network is a parameter (the outcome of each attempt) and the waits are
 * recorded in a log instead of slept, so one call is a pure function from the
 * client, the arguments and the network to an `Execution`.
 */
module Client {
  import opened Options
  import opened Urls
  import opened Headers
  import opened Http
  import opened Errors

  datatype APIClient = APIClient(
    baseUrl: string,
    timeout: int,
    retries: int,
    authToken: Option<string>,
    closes: nat)

  /** The constructor: the base URL loses every trailing `/`, the rest is stored as given. */
  function New(baseUrl: string, timeout: int := 10, retries: int := 1, authToken: Option<string> := None): (c: APIClient)
    ensures IsRStripOf(c.baseUrl, baseUrl) && !EndsWithSlash(c.baseUrl)
    ensures c.timeout == timeout && c.retries == retries && c.authToken == authToken
    ensures c.closes == 0
  {
    APIClient(RStripSlashes(baseUrl), timeout, retries, authToken, 0)
  }

  /** How a call ends: a decoded JSON value is returned, or an error is raised. */
  datatype CallResult = Returned(value: Json) | Raised(error: ClientError)

  /**
   * One call as observed from outside: how it ended, how many times the loop
   * body ran, the requests put on the wire in order, and the backoff waits in
   * seconds in order.
   */
  datatype Execution = Execution(result: CallResult, attempts: nat, sent: seq<Request>, backoffs: seq<nat>)

  /** What stays fixed across the attempts of one call. */
  datatype Prepared = Prepared(name: string, url: string, request: Option<Request>, retries: int)

  function Pow2(n: nat): (p: nat)
    ensures p >= 1
  {
    if n == 0 then 1 else 2 * Pow2(n - 1)
  }

  /** The wait after failed attempt `attempt`: `2 ** (attempt - 1)`. */
  function Backoff(attempt: nat): (b: nat)
    requires attempt >= 1
    ensures attempt == 1 ==> b == 1
    ensures 2 * b == Pow2(attempt)
  {
    Pow2(attempt - 1)
  }

  /** The wait starts at one second and doubles with every failed attempt. */
  lemma BackoffDoubles(attempt: nat)
    requires attempt >= 1
    ensures Backoff(1) == 1
    ensures Backoff(attempt + 1) == 2 * Backoff(attempt)
  {
  }

  /** How many more times the loop body runs when the next attempt is number `attempt`. */
  function Remaining(retries: int, attempt: nat): nat
  {
    if retries >= attempt then retries - attempt + 1 else 0
  }

  /** `raise_for_status().json()` and the two `except` clauses that end the call. */
  function Classify(request: Request, response: Response): (r: CallResult)
    ensures r.Returned? <==> IsSuccess(response.status) && response.body.Decoded?
    ensures r.Returned? ==> r.value == response.body.value
    ensures r.Raised? && !IsSuccess(response.status) ==> r.error == StatusError(request, response)
    ensures r.Raised? && IsSuccess(response.status) ==> r.error == DecodeError
  {
    if !IsSuccess(response.status) then Raised(StatusError(request, response))
    else match response.body
      case Decoded(v) => Returned(v)
      case Malformed => Raised(DecodeError)
  }

  /**
   * The loop from attempt `attempt` on. A transport failure records its wait
   * and moves on; anything else ends the call where it happens; past the last
   * attempt the call raises the exhaustion error.
   */
  function Attempts(p: Prepared, net: Network, attempt: nat): (e: Execution)
    requires attempt >= 1
    ensures e.attempts <= Remaining(p.retries, attempt)
    ensures |e.backoffs| <= |e.sent| <= e.attempts
    ensures forall i | 0 <= i < |e.sent| :: p.request == Some(e.sent[i])
    ensures forall i | 0 <= i < |e.backoffs| :: e.backoffs[i] == Backoff(attempt + i) && net(attempt + i).Failed?
    ensures e.result.Raised? && e.result.error.RetriesExhausted? ==>
              && e.result.error == RetriesExhausted(p.name, p.url, p.retries)
              && e.attempts == Remaining(p.retries, attempt) == |e.sent| == |e.backoffs|
    ensures e.result.Raised? && e.result.error.UnsupportedMethod? ==>
              && e.result.error.name == p.name && p.request.None?
              && e.attempts == 1 && e.sent == [] && e.backoffs == []
    decreases Remaining(p.retries, attempt)
  {
    if attempt > p.retries then
      Execution(Raised(RetriesExhausted(p.name, p.url, p.retries)), 0, [], [])
    else match p.request
      case None => Execution(Raised(UnsupportedMethod(p.name)), 1, [], [])
      case Some(req) =>
        match net(attempt)
        case Responded(resp) => Execution(Classify(req, resp), 1, [req], [])
        case Failed(_) =>
          var rest := Attempts(p, net, attempt + 1);
          Execution(rest.result, rest.attempts + 1, [req] + rest.sent, [Backoff(attempt)] + rest.backoffs)
  }

  /** URL join, header assembly and request shaping, done once per call. */
  function Prepare(c: APIClient, name: string, endpoint: string, params: Option<Fields>, data: Option<Fields>, headers: Option<HeaderMap>): (p: Prepared)
    ensures p.name == name && p.retries == c.retries
    ensures p.url == JoinUrl(c.baseUrl, endpoint)
    ensures p.request.Some? <==> ParseMethod(name).Some?
    ensures p.request.Some? ==> p.request.value.url == p.url && p.request.value.headers == GetHeaders(c.authToken, headers)
  {
    var url := JoinUrl(c.baseUrl, endpoint);
    Prepared(name, url, BuildRequest(name, url, params, data, GetHeaders(c.authToken, headers)), c.retries)
  }

  /** `_make_request`. */
  function MakeRequest(c: APIClient, name: string, endpoint: string, params: Option<Fields>, data: Option<Fields>, headers: Option<HeaderMap>, net: Network): (e: Execution)
    ensures e.attempts <= Remaining(c.retries, 1)
    ensures forall r | r in e.sent ::
              && ParseMethod(name) == Some(r.verb)
              && r.url == JoinUrl(c.baseUrl, endpoint)
              && r.params == (if r.verb == GET then params else None)
              && r.json == (if r.verb in {POST, PUT, PATCH} then data else None)
              && r.headers == GetHeaders(c.authToken, headers)
    ensures forall i | 0 <= i < |e.backoffs| :: e.backoffs[i] == Pow2(i)
  {
    var e := Attempts(Prepare(c, name, endpoint, params, data, headers), net, 1);
    assert forall r | r in e.sent :: exists i :: 0 <= i < |e.sent| && e.sent[i] == r;
    e
  }

  /** `get`: query parameters and headers are forwarded, no body. */
  function Get(c: APIClient, endpoint: string, params: Option<Fields>, headers: Option<HeaderMap>, net: Network): (e: Execution)
    ensures !(e.result.Raised? && e.result.error.UnsupportedMethod?)
    ensures forall r | r in e.sent :: r == Request(GET, JoinUrl(c.baseUrl, endpoint), params, None, GetHeaders(c.authToken, headers))
  {
    MakeRequest(c, "GET", endpoint, params, None, headers, net)
  }

  /** `post`: the body is sent as JSON, no query parameters. */
  function Post(c: APIClient, endpoint: string, data: Fields, headers: Option<HeaderMap>, net: Network): (e: Execution)
    ensures !(e.result.Raised? && e.result.error.UnsupportedMethod?)
    ensures forall r | r in e.sent :: r == Request(POST, JoinUrl(c.baseUrl, endpoint), None, Some(data), GetHeaders(c.authToken, headers))
  {
    MakeRequest(c, "POST", endpoint, None, Some(data), headers, net)
  }

  /** `put`: the body is sent as JSON, no query parameters. */
  function Put(c: APIClient, endpoint: string, data: Fields, headers: Option<HeaderMap>, net: Network): (e: Execution)
    ensures !(e.result.Raised? && e.result.error.UnsupportedMethod?)
    ensures forall r | r in e.sent :: r == Request(PUT, JoinUrl(c.baseUrl, endpoint), None, Some(data), GetHeaders(c.authToken, headers))
  {
    MakeRequest(c, "PUT", endpoint, None, Some(data), headers, net)
  }

  /** `patch`: the body is sent as JSON, no query parameters. */
  function Patch(c: APIClient, endpoint: string, data: Fields, headers: Option<HeaderMap>, net: Network): (e: Execution)
    ensures !(e.result.Raised? && e.result.error.UnsupportedMethod?)
    ensures forall r | r in e.sent :: r == Request(PATCH, JoinUrl(c.baseUrl, endpoint), None, Some(data), GetHeaders(c.authToken, headers))
  {
    MakeRequest(c, "PATCH", endpoint, None, Some(data), headers, net)
  }

  /** `delete`: only headers are forwarded; no parameters, no body. */
  function Delete(c: APIClient, endpoint: string, headers: Option<HeaderMap>, net: Network): (e: Execution)
    ensures !(e.result.Raised? && e.result.error.UnsupportedMethod?)
    ensures forall r | r in e.sent :: r == Request(DELETE, JoinUrl(c.baseUrl, endpoint), None, None, GetHeaders(c.authToken, headers))
  {
    MakeRequest(c, "DELETE", endpoint, None, None, headers, net)
  }
}
