/**
 * Properties of the retry loop of `_make_request`, and the loop itself written
 * as the source writes it (`for attempt in range(1, retries + 1)`), proved to
 * behave exactly as the recursive `Client.Attempts`.
 */
module Retry {
  import opened Options
  import opened Urls
  import opened Headers
  import opened Http
  import opened Errors
  import opened Client

  function Repeat<T>(x: T, n: nat): (s: seq<T>)
    ensures |s| == n && forall i | 0 <= i < n :: s[i] == x
  {
    if n == 0 then [] else [x] + Repeat(x, n - 1)
  }

  /** The waits after `n` failed attempts numbered from `first`. */
  function BackoffRun(first: nat, n: nat): seq<nat>
    requires first >= 1
    decreases n
  {
    if n == 0 then [] else [Backoff(first)] + BackoffRun(first + 1, n - 1)
  }

  function Sum(s: seq<nat>): nat
  {
    if s == [] then 0 else s[0] + Sum(s[1..])
  }

  /** The waits of a run starting at attempt 1 are 1, 2, 4, ... */
  lemma {:induction false} BackoffRunDoubles(first: nat, n: nat)
    requires first >= 1
    ensures |BackoffRun(first, n)| == n
    ensures forall i | 0 <= i < n :: BackoffRun(first, n)[i] == Pow2(first - 1 + i)
    decreases n
  {
    if n > 0 {
      BackoffRunDoubles(first + 1, n - 1);
    }
  }

  /** Waiting after each of `n` failed attempts from `first` on totals `2^(first-1+n) - 2^(first-1)` seconds. */
  lemma {:induction false} BackoffRunTotal(first: nat, n: nat)
    requires first >= 1
    ensures Sum(BackoffRun(first, n)) == Pow2(first - 1 + n) - Pow2(first - 1)
    decreases n
  {
    if n > 0 {
      var run := BackoffRun(first, n);
      assert run[1..] == BackoffRun(first + 1, n - 1);
      BackoffRunTotal(first + 1, n - 1);
    }
  }

  /** After `n` consecutive transport failures from attempt 1 the client has waited `2^n - 1` seconds in all. */
  lemma TotalBackoff(n: nat)
    ensures Sum(BackoffRun(1, n)) == Pow2(n) - 1
  {
    BackoffRunTotal(1, n);
  }

  /** The first attempt that gets a response ends the call there, with that response's classification. */
  lemma {:induction false} StopsAtFirstResponseFrom(p: Prepared, net: Network, attempt: nat, k: nat)
    requires 1 <= attempt <= k <= p.retries && p.request.Some?
    requires forall j | attempt <= j < k :: net(j).Failed?
    requires net(k).Responded?
    ensures Attempts(p, net, attempt)
         == Execution(Classify(p.request.value, net(k).response), k - attempt + 1,
                      Repeat(p.request.value, k - attempt + 1), BackoffRun(attempt, k - attempt))
    decreases k - attempt
  {
    if attempt < k {
      StopsAtFirstResponseFrom(p, net, attempt + 1, k);
    }
  }

  /** When every remaining attempt fails in transport, the call sends each, waits after each, and raises the exhaustion error. */
  lemma {:induction false} ExhaustsFrom(p: Prepared, net: Network, attempt: nat)
    requires attempt >= 1 && p.request.Some?
    requires forall j | attempt <= j <= p.retries :: net(j).Failed?
    ensures var n := Remaining(p.retries, attempt);
            && Attempts(p, net, attempt).result == Raised(RetriesExhausted(p.name, p.url, p.retries))
            && Attempts(p, net, attempt).attempts == n
            && Attempts(p, net, attempt).sent == Repeat(p.request.value, n)
            && Attempts(p, net, attempt).backoffs == BackoffRun(attempt, n)
    decreases Remaining(p.retries, attempt)
  {
    if attempt <= p.retries {
      ExhaustsFrom(p, net, attempt + 1);
    }
  }

  /**
   * A call whose attempts `1 .. k-1` fail in transport and whose attempt `k`
   * gets a response ends at attempt `k`: a 2xx JSON body is returned as decoded,
   * a 2xx undecodable body raises the decode error, any other status raises the
   * status error carrying the request and the response. The waits were 1, 2, ...,
   * `2^(k-2)`.
   */
  lemma StopsAtFirstResponse(c: APIClient, name: string, endpoint: string, params: Option<Fields>, data: Option<Fields>,
                             headers: Option<HeaderMap>, net: Network, k: nat)
    requires ParseMethod(name).Some?
    requires 1 <= k <= c.retries
    requires forall j | 1 <= j < k :: net(j).Failed?
    requires net(k).Responded?
    ensures var e := MakeRequest(c, name, endpoint, params, data, headers, net);
            var resp := net(k).response;
            && e.attempts == k && |e.sent| == k && e.backoffs == BackoffRun(1, k - 1)
            && (IsSuccess(resp.status) && resp.body.Decoded? ==> e.result == Returned(resp.body.value))
            && (IsSuccess(resp.status) && resp.body.Malformed? ==> e.result == Raised(DecodeError))
            && (!IsSuccess(resp.status) ==> e.result == Raised(StatusError(e.sent[k - 1], resp)))
  {
    StopsAtFirstResponseFrom(Prepare(c, name, endpoint, params, data, headers), net, 1, k);
  }

  /**
   * A call whose every attempt fails in transport makes exactly `retries`
   * attempts (none when `retries <= 0`), waits after each one including the
   * last, and raises the exhaustion error with no request or response attached.
   */
  lemma ExhaustsAfterAllFailures(c: APIClient, name: string, endpoint: string, params: Option<Fields>, data: Option<Fields>,
                                 headers: Option<HeaderMap>, net: Network)
    requires ParseMethod(name).Some? || c.retries <= 0
    requires forall j | 1 <= j <= c.retries :: net(j).Failed?
    ensures var e := MakeRequest(c, name, endpoint, params, data, headers, net);
            var n := Remaining(c.retries, 1);
            && e.result == Raised(RetriesExhausted(name, JoinUrl(c.baseUrl, endpoint), c.retries))
            && RequestAttr(e.result.error) == None && ResponseAttr(e.result.error) == None
            && e.attempts == n && |e.sent| == n
            && e.backoffs == BackoffRun(1, n) && Sum(e.backoffs) == Pow2(n) - 1
  {
    if c.retries >= 1 {
      ExhaustsFrom(Prepare(c, name, endpoint, params, data, headers), net, 1);
    }
    TotalBackoff(Remaining(c.retries, 1));
  }

  /** With `retries <= 0` nothing is sent, nothing is waited for, and the exhaustion error is raised, whatever the method. */
  lemma NoAttemptsWithoutRetries(c: APIClient, name: string, endpoint: string, params: Option<Fields>, data: Option<Fields>,
                                 headers: Option<HeaderMap>, net: Network)
    requires c.retries <= 0
    ensures MakeRequest(c, name, endpoint, params, data, headers, net)
         == Execution(Raised(RetriesExhausted(name, JoinUrl(c.baseUrl, endpoint), c.retries)), 0, [], [])
  {
  }

  /** An unknown method raises `ValueError` on attempt 1: no request, no retry, no wait. */
  lemma UnsupportedMethodFailsFast(c: APIClient, name: string, endpoint: string, params: Option<Fields>, data: Option<Fields>,
                                   headers: Option<HeaderMap>, net: Network)
    requires ParseMethod(name).None? && c.retries >= 1
    ensures var e := MakeRequest(c, name, endpoint, params, data, headers, net);
            && e == Execution(Raised(UnsupportedMethod(name)), 1, [], [])
            && !IsAPIClientError(e.result.error)
  {
  }

  /** A call that returns, or raises the decode or status error, ends with the classification of the response to its last attempt. */
  lemma {:induction false} EndsOnClassifiedResponse(p: Prepared, net: Network, attempt: nat)
    requires attempt >= 1
    ensures var e := Attempts(p, net, attempt);
            e.result.Returned? || (e.result.Raised? && (e.result.error.StatusError? || e.result.error.DecodeError?)) ==>
              && |e.sent| == |e.backoffs| + 1 == e.attempts
              && net(attempt + |e.backoffs|).Responded?
              && e.result == Classify(e.sent[|e.backoffs|], net(attempt + |e.backoffs|).response)
    decreases Remaining(p.retries, attempt)
  {
    if attempt <= p.retries && p.request.Some? && net(attempt).Failed? {
      EndsOnClassifiedResponse(p, net, attempt + 1);
      var rest := Attempts(p, net, attempt + 1);
      var e := Attempts(p, net, attempt);
      assert e.sent == [p.request.value] + rest.sent;
      assert e.backoffs == [Backoff(attempt)] + rest.backoffs;
      if |rest.sent| == |rest.backoffs| + 1 {
        assert e.sent[|e.backoffs|] == rest.sent[|rest.backoffs|];
      }
    }
  }

  /** The call's last attempt got a response whose status `raise_for_status()` rejects. */
  predicate EndedOnErrorStatus(e: Execution, net: Network)
  {
    && |e.sent| == |e.backoffs| + 1
    && net(|e.sent|).Responded?
    && !IsSuccess(net(|e.sent|).response.status)
  }

  /**
   * Over a whole call, a raised `APIClientError` has its `request` and
   * `response` attributes set exactly when the call ended on a non-2xx
   * response, and then they are the last request sent and that response.
   */
  lemma ErrorAttributesOverCall(c: APIClient, name: string, endpoint: string, params: Option<Fields>, data: Option<Fields>,
                                headers: Option<HeaderMap>, net: Network)
    ensures var e := MakeRequest(c, name, endpoint, params, data, headers, net);
            e.result.Raised? && IsAPIClientError(e.result.error) ==>
              && (RequestAttr(e.result.error).Some? <==> EndedOnErrorStatus(e, net))
              && (ResponseAttr(e.result.error).Some? <==> EndedOnErrorStatus(e, net))
              && (EndedOnErrorStatus(e, net) ==>
                    && RequestAttr(e.result.error) == Some(e.sent[|e.sent| - 1])
                    && e.attempts == |e.sent|
                    && ResponseAttr(e.result.error) == Some(net(|e.sent|).response))
  {
    EndsOnClassifiedResponse(Prepare(c, name, endpoint, params, data, headers), net, 1);
  }

  /**
   * The wrappers are `_make_request` with the method fixed: whatever would
   * fill the argument a method does not send (the body of a GET, the
   * parameters of a POST, both for a DELETE) makes no difference.
   */
  lemma WrappersForwardOnlyWhatIsSent(c: APIClient, endpoint: string, params: Option<Fields>, data: Option<Fields>, body: Fields,
                                      headers: Option<HeaderMap>, net: Network)
    ensures Get(c, endpoint, params, headers, net) == MakeRequest(c, "GET", endpoint, params, data, headers, net)
    ensures Post(c, endpoint, body, headers, net) == MakeRequest(c, "POST", endpoint, params, Some(body), headers, net)
    ensures Put(c, endpoint, body, headers, net) == MakeRequest(c, "PUT", endpoint, params, Some(body), headers, net)
    ensures Patch(c, endpoint, body, headers, net) == MakeRequest(c, "PATCH", endpoint, params, Some(body), headers, net)
    ensures Delete(c, endpoint, headers, net) == MakeRequest(c, "DELETE", endpoint, params, data, headers, net)
  {
  }

  /** A network that never answers, against three retries: three requests, waits of 1, 2 and 4 seconds, then exhaustion. */
  lemma ThreeFailedAttemptsExample(c: APIClient, endpoint: string, net: Network)
    requires c.retries == 3
    requires forall j :: net(j) == Failed(ConnectError)
    ensures var e := Get(c, endpoint, None, None, net);
            && e.backoffs == [1, 2, 4]
            && e.attempts == 3
            && e.result == Raised(RetriesExhausted("GET", JoinUrl(c.baseUrl, endpoint), 3))
  {
    ExhaustsAfterAllFailures(c, "GET", endpoint, None, None, None, net);
    assert BackoffRun(1, 3) == [1, 2, 4];
  }

  /** The trace of attempts done so far followed by the trace of the rest of the loop. */
  function Resume(sent: seq<Request>, backoffs: seq<nat>, done: nat, rest: Execution): Execution
  {
    Execution(rest.result, rest.attempts + done, sent + rest.sent, backoffs + rest.backoffs)
  }

  /** One transport failure moves a request and a wait from the rest of the loop into what has been done. */
  lemma ResumeAfterFailure(p: Prepared, net: Network, attempt: nat, sent: seq<Request>, backoffs: seq<nat>)
    requires 1 <= attempt <= p.retries && p.request.Some? && net(attempt).Failed?
    ensures Resume(sent, backoffs, attempt - 1, Attempts(p, net, attempt))
         == Resume(sent + [p.request.value], backoffs + [Backoff(attempt)], attempt, Attempts(p, net, attempt + 1))
  {
    var rest := Attempts(p, net, attempt + 1);
    assert sent + ([p.request.value] + rest.sent) == (sent + [p.request.value]) + rest.sent;
    assert backoffs + ([Backoff(attempt)] + rest.backoffs) == (backoffs + [Backoff(attempt)]) + rest.backoffs;
  }

  /** `_make_request` as a loop over the attempt numbers, as the source writes it. */
  method MakeRequestLoop(c: APIClient, name: string, endpoint: string, params: Option<Fields>, data: Option<Fields>,
                         headers: Option<HeaderMap>, net: Network) returns (e: Execution)
    ensures e == MakeRequest(c, name, endpoint, params, data, headers, net)
  {
    var p := Prepare(c, name, endpoint, params, data, headers);
    var sent: seq<Request> := [];
    var backoffs: seq<nat> := [];
    var attempt: nat := 1;
    while attempt <= c.retries
      invariant attempt >= 1
      invariant Resume(sent, backoffs, attempt - 1, Attempts(p, net, attempt)) == Attempts(p, net, 1)
      decreases Remaining(c.retries, attempt)
    {
      if p.request.None? {
        return Resume(sent, backoffs, attempt - 1, Execution(Raised(UnsupportedMethod(name)), 1, [], []));
      }
      var req := p.request.value;
      var outcome := net(attempt);
      if outcome.Responded? {
        return Resume(sent, backoffs, attempt - 1, Execution(Classify(req, outcome.response), 1, [req], []));
      }
      ResumeAfterFailure(p, net, attempt, sent, backoffs);
      sent := sent + [req];
      backoffs := backoffs + [Backoff(attempt)];
      attempt := attempt + 1;
    }
    e := Resume(sent, backoffs, attempt - 1, Execution(Raised(RetriesExhausted(name, p.url, c.retries)), 0, [], []));
  }
}
