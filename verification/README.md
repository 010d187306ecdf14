# APIClient: a Dafny model of the outbound HTTP client

The repository is a FastAPI service scaffold. Its one component with real logic
is `APIClient` (`app/clients/api.py`), an asynchronous HTTP client. The client is
bound to one base URL. It assembles JSON headers with an optional bearer token. It
sends a request up to `retries` times. A response ends the call: a 2xx JSON body
is returned, an undecodable 2xx body or an error status raises `APIClientError`.
A transport failure (connect error, read timeout, any other request error) is
logged, waited out for `2^(attempt-1)` seconds, and retried. When every attempt
fails in transport, the call raises an exhaustion error.

This project models that client as pure functions:

- `Urls`: base-URL normalisation (`rstrip("/")`), endpoint stripping (`lstrip("/")`), URL joining.
- `Headers`: default headers, the bearer token, caller overrides.
- `Http`: the five methods, the request each one sends, responses, attempt outcomes.
- `Errors`: the four ways a call can fail, with the `APIClientError` attributes and messages.
- `Decimal`: how the retry count is written into the exhaustion message (`f"{retries}"`).
- `Client`: the constructor, the retry loop (`Attempts`), `_make_request`, and the `get/post/put/patch/delete` wrappers.
- `Retry`: whole-call properties of the loop, plus the loop written as the source's `for` loop and proved equal to the recursive definition.
- `Lifecycle`: `close`, `__aenter__` and `__aexit__` over a count of calls to `close()`.

The network is a parameter `net: nat -> AttemptOutcome`, giving the outcome of
attempt `k`. `asyncio.sleep` becomes an entry appended to a backoff log. A call
therefore yields an `Execution`: how it ended, how many times the loop body ran,
the requests sent, and the waits in seconds.

The model follows the code on these points:

- `lstrip('/')` removes every leading slash, not only one.
- An endpoint made only of slashes is non-empty, so it yields the base URL plus `/`, not the base URL.
- An unsupported method raises a plain `ValueError`, not an `APIClientError` (`Errors.IsAPIClientError` is false for it).
- The backoff wait also follows the last failed attempt, before the exhaustion error. So `n` failures wait `2^n - 1` seconds in all.
- With `retries <= 0` the loop body never runs. No request is sent, and even an unsupported method raises the exhaustion error.

## Model

| member | source | states |
|---|---|---|
| `Urls.RStripSlashes` | app/clients/api.py:33 | the result is a prefix of the input that does not end in `/`, and only `/` characters were cut off |
| `Urls.RStripUnique` | app/clients/api.py:33 | any string meeting that description is the result, so the description defines `rstrip("/")` exactly |
| `Urls.RStripIdempotent` | app/clients/api.py:33 | stripping a stored base URL again changes nothing |
| `Urls.LStripSlashes` | app/clients/api.py:62 | the result is a suffix of the endpoint that does not start with `/`, and only `/` characters were cut off |
| `Urls.LStripUnique` | app/clients/api.py:62 | any string meeting that description is the result of `lstrip("/")` |
| `Urls.LStripIgnoresSlashes` | app/clients/api.py:62 | prepending any number of slashes does not change the stripped endpoint |
| `Urls.JoinUrl` | app/clients/api.py:61-65 | an empty endpoint targets exactly the base URL; otherwise the URL is the base URL, one `/`, then the endpoint with its leading slashes removed |
| `Urls.JoinIgnoresLeadingSlashes` | app/clients/api.py:61-65 | a non-empty endpoint gives the same URL with or without any number of leading slashes |
| `Urls.JoinHasSingleSeparator` | app/clients/api.py:33-65 | against a normalised base URL, a non-empty endpoint is joined with exactly one `/`, never two |
| `Urls.JoinExample` | app/clients/api.py:61-65 | `https://api.example.com` joined with `/v1/items` and with `v1/items` both give `https://api.example.com/v1/items`; the empty endpoint gives the base |
| `Headers.GetHeaders` | app/clients/api.py:41-51 | the keys are Content-Type, Authorization when a non-empty token is set, and the caller's keys, nothing else; caller values win; Content-Type is `application/json` unless overridden; Authorization is `Bearer <token>` exactly when the token is non-empty and not overridden |
| `Headers.DefaultHeaders` | app/clients/api.py:42-46 | before the caller's headers, the keys are Content-Type and, exactly when the token is non-empty, Authorization; Content-Type is `application/json` and Authorization is `Bearer <token>` |
| `Headers.GetHeadersPointwise` | app/clients/api.py:41-51 | key by key, a header is the caller's value, else the client default for that key, else absent |
| `Headers.NoOverridesSameAsEmpty` | app/clients/api.py:48-49 | passing no headers and passing an empty dictionary send the same headers |
| `Headers.OverridesWin` | app/clients/api.py:41-51 | a caller who sets both Content-Type and Authorization sends exactly their own headers |
| `Http.ParseMethod` | app/clients/api.py:73-86 | exactly the five strings GET, POST, PUT, DELETE, PATCH are accepted, case-sensitively, each as the method of that name |
| `Http.ParseMethodName` | app/clients/api.py:73-84 | every method is accepted under its own name (round trip) |
| `Http.BuildRequest` | app/clients/api.py:73-86 | a request exists exactly for the five methods; it carries the URL and headers; query parameters only for GET; a JSON body only for POST, PUT and PATCH |
| `Decimal.NatToDecimal` | app/clients/api.py:109 | a non-negative count renders as a non-empty run of digits with no leading zero |
| `Decimal.IntToDecimal` | app/clients/api.py:109 | any count renders as a non-empty string that starts with `-` exactly when the count is negative |
| `Decimal.NatDecimalRoundTrip` | app/clients/api.py:109 | the digits of a non-negative count read back as that count |
| `Decimal.IntDecimalRoundTrip` | app/clients/api.py:109 | the rendering of any count, negative included, parses back to that count |
| `Decimal.IntToDecimalInjective` | app/clients/api.py:109 | different counts render differently |
| `Errors.ExhaustedMessageNamesCall` | app/clients/api.py:108-110 | the exhaustion message starts with the method after its fixed prefix, continues with the URL, and ends with a count that reads back as `retries` |
| `Errors.Message` | app/clients/api.py:86-110 | the unsupported-method message is `Unsupported HTTP method: ` followed by exactly the method; the decode message is the fixed text; the exhaustion message starts with `Failed to complete ` |
| `Errors.MessageIdentifiesError` | app/clients/api.py:86-110 | two errors with the same message are of the same kind, and two unsupported-method errors with the same message name the same method |
| `Client.New` | app/clients/api.py:25-39 | the stored base URL is the input with every trailing `/` removed and never ends in `/`; timeout, retries and token are kept; the client starts unclosed |
| `Client.Backoff` | app/clients/api.py:104 | the wait after attempt 1 is one second, and twice the wait after attempt `k` is `2^k` |
| `Client.BackoffDoubles` | app/clients/api.py:104 | the wait starts at one second and doubles after every failed attempt |
| `Client.Prepare` | app/clients/api.py:61-66 | the call's URL is the join of the base URL and the endpoint; a request exists exactly for a supported method and then carries that URL and the assembled headers; the retry budget is the client's |
| `Client.Classify` | app/clients/api.py:89-102 | a 2xx response with a JSON body returns exactly that value; a 2xx undecodable body raises the decode error; any other status raises the status error carrying the request and the response |
| `Client.Attempts` | app/clients/api.py:68-110 | at most the remaining budget of attempts runs; every request sent is the call's request; the wait after attempt `k` is `2^(k-1)` and only follows a transport failure; exhaustion happens only after every remaining attempt was sent and waited out; an unsupported method stops at its first attempt with nothing sent |
| `Client.MakeRequest` | app/clients/api.py:53-110 | at most `retries` attempts; every request sent has the parsed method, the joined URL, the assembled headers, parameters only for GET and a body only for POST/PUT/PATCH; the waits are 1, 2, 4, ... |
| `Client.Get` | app/clients/api.py:112-118 | never raises the unsupported-method error; every request sent is a GET with the caller's parameters and no body |
| `Client.Put` | app/clients/api.py:120-126 | never raises the unsupported-method error; every request sent is a PUT with the caller's body and no parameters |
| `Client.Post` | app/clients/api.py:128-134 | never raises the unsupported-method error; every request sent is a POST with the caller's body and no parameters |
| `Client.Delete` | app/clients/api.py:136-139 | never raises the unsupported-method error; every request sent is a DELETE with neither parameters nor body |
| `Client.Patch` | app/clients/api.py:141-147 | never raises the unsupported-method error; every request sent is a PATCH with the caller's body and no parameters |
| `Retry.BackoffRunDoubles` | app/clients/api.py:104-106 | the waits after consecutive failed attempts double each time, starting from `2^(first-1)` |
| `Retry.BackoffRunTotal` | app/clients/api.py:104-106 | waits after `n` failed attempts from attempt `first` total `2^(first-1+n) - 2^(first-1)` |
| `Retry.TotalBackoff` | app/clients/api.py:104-106 | `n` consecutive transport failures from attempt 1 wait `2^n - 1` seconds in all |
| `Retry.StopsAtFirstResponseFrom` | app/clients/api.py:68-106 | from any attempt on, the first attempt that gets a response ends the loop there, with all earlier attempts sent and waited out |
| `Retry.ExhaustsFrom` | app/clients/api.py:68-110 | from any attempt on, if every remaining attempt fails in transport, each is sent and waited out and the exhaustion error follows |
| `Retry.StopsAtFirstResponse` | app/clients/api.py:68-106 | if attempt `k` is the first to get a response, the call makes exactly `k` attempts, waits 1, ..., `2^(k-2)`, and returns the decoded JSON or raises the decode or status error (with the request sent and the response) |
| `Retry.ExhaustsAfterAllFailures` | app/clients/api.py:68-110 | if every attempt fails in transport, the call makes exactly `retries` attempts (none when `retries <= 0`), waits after each including the last (`2^retries - 1` in all), and raises the exhaustion error naming method, URL and `retries`, with no request or response attached |
| `Retry.EndsOnClassifiedResponse` | app/clients/api.py:68-102 | a call that returns or raises the decode or status error has sent one more request than it waited, and its result is the classification of the response to its last attempt |
| `Retry.ErrorAttributesOverCall` | app/clients/api.py:96-110 | over a whole call, a raised `APIClientError` has `request` and `response` set exactly when the call ended on a non-2xx response, and then they are the last request sent and that response |
| `Retry.WrappersForwardOnlyWhatIsSent` | app/clients/api.py:112-147 | each wrapper is `_make_request` with its method fixed, and any value in the argument that method does not send (GET's body, the parameters of POST/PUT/PATCH, both for DELETE) changes nothing |
| `Retry.NoAttemptsWithoutRetries` | app/clients/api.py:68-110 | with `retries <= 0` nothing is sent or waited for, and the exhaustion error is raised whatever the method |
| `Retry.UnsupportedMethodFailsFast` | app/clients/api.py:73-86 | an unknown method raises `ValueError` (not an `APIClientError`) on attempt 1 with no request sent, no retry and no wait |
| `Retry.ThreeFailedAttemptsExample` | app/clients/api.py:90-110 | a GET against a network that never connects, with three retries, waits 1, 2 and 4 seconds and then raises the exhaustion error |
| `Retry.MakeRequestLoop` | app/clients/api.py:61-110 | the attempt loop written as the source's `for` loop computes the same execution as the recursive definition |
| `Lifecycle.Exit` | app/clients/api.py:157-159 | exiting calls `close()` once and does not suppress the block's outcome |
| `Lifecycle.Scoped` | app/clients/api.py:153-159 | an `async with` block ends with one more call to `close()` than the block left, and its result or exception reaches the caller unchanged |
| `Lifecycle.ScopeClosesExactlyOnce` | app/clients/api.py:153-159 | a block that does not close the client itself leaves it closed exactly once, whether it returned or raised, and what it raised propagates |

## Left out

- The httpx `AsyncClient`, real network I/O, the timeout and connection pooling. Each attempt's outcome is the parameter `net`. A read timeout is the `ReadTimeout` outcome; a connect, write or pool timeout is `OtherRequestError`, since httpx raises those as timeout exceptions that are neither `ConnectError` nor `ReadTimeout`.
- `asyncio.sleep` and asynchronous suspension. Waits are recorded in `Execution.backoffs` and not slept.
- Logging (`logging.basicConfig` and every `self.logger` call). It has no effect on results.
- JSON encoding and decoding. A body is either a decoded value or `Malformed`. An empty 2xx body counts as `Malformed`, because `json()` fails on it. Floating-point JSON numbers are not modelled.
- `raise_for_status()` is modelled as letting exactly the 2xx statuses through, which is httpx's rule. Redirects are not followed, so 3xx statuses raise too.
- Errors raised while a request is built or sent that are not `httpx.RequestError` are not modelled. For example, `json.dumps` raises `TypeError` when `data` holds a `datetime` or a `set`. Such an error escapes every `except` clause on attempt 1, with no retry, no wait and no `APIClientError`. Request data is restricted to JSON values (`Http.Fields`), so the model has no such case.
- The exception chaining of `raise ... from e` is not modelled. The decode error does not carry the `JSONDecodeError` as its `__cause__`, and the status error does not carry the `HTTPStatusError`. The status error does carry that exception's request and response.
- The text httpx gives an `HTTPStatusError` (`str(e)`, used as the message of a status error) is not modelled. `Errors.Message` covers the other three errors.
- Header names are compared exactly, as Python dictionary keys are. httpx's case-insensitive header handling on the wire is not modelled.
- Closing twice, or sending after `close`, is not guarded by the source. Sending after `close()` raises httpx's `RuntimeError` on attempt 1, which no `except` clause catches; `MakeRequest` ignores `closes`. The model only counts calls to `close()`; httpx's `aclose()` does nothing on a client that is already closed.
- A body whose decoding fails with an exception other than `JSONDecodeError` is not modelled. No `except` clause would catch such an exception.
- The configuration, database, cache, Celery and FastAPI wiring modules. They are thin wrappers over their libraries with no logic of their own.
