/**
 * The request and response vocabulary of the client: the five HTTP methods it
 * dispatches, the request it builds for each, what one attempt can yield, and
 * how a response is classified (`raise_for_status()` then `.json()`).
 */
module Http {
  import opened Options
  import opened Headers

  /** A decoded JSON document. Numbers are integers here; floating point is not modelled. */
  datatype Json =
    | JNull
    | JBool(b: bool)
    | JNumber(n: int)
    | JString(s: string)
    | JArray(items: seq<Json>)
    | JObject(members: seq<(string, Json)>)

  /** Query parameters or a JSON body: `Dict[str, Any]`. */
  type Fields = map<string, Json>

  datatype Method = GET | POST | PUT | DELETE | PATCH

  function MethodName(m: Method): string
  {
    match m
    case GET => "GET"
    case POST => "POST"
    case PUT => "PUT"
    case DELETE => "DELETE"
    case PATCH => "PATCH"
  }

  /** The `if/elif` chain on the method string: case-sensitive, exact match only. */
  function ParseMethod(name: string): (m: Option<Method>)
    ensures m.Some? <==> name in {"GET", "POST", "PUT", "DELETE", "PATCH"}
    ensures m.Some? ==> MethodName(m.value) == name
  {
    if name == "GET" then Some(GET)
    else if name == "POST" then Some(POST)
    else if name == "PUT" then Some(PUT)
    else if name == "DELETE" then Some(DELETE)
    else if name == "PATCH" then Some(PATCH)
    else None
  }

  /** Every method the client knows is recognised by its own name. */
  lemma ParseMethodName(m: Method)
    ensures ParseMethod(MethodName(m)) == Some(m)
  {
  }

  /** What goes on the wire: query parameters only for GET, a JSON body only for POST, PUT and PATCH. */
  datatype Request = Request(verb: Method, url: string, params: Option<Fields>, json: Option<Fields>, headers: HeaderMap)

  /**
   * The request each attempt sends, or `None` for a method outside the five
   * (the branch that raises `ValueError`). Parameters passed with a method that
   * does not send them, and a body passed with GET or DELETE, are dropped.
   */
  function BuildRequest(name: string, url: string, params: Option<Fields>, data: Option<Fields>, headers: HeaderMap): (r: Option<Request>)
    ensures r.Some? <==> ParseMethod(name).Some?
    ensures r.Some? ==>
              && r.value.verb == ParseMethod(name).value
              && r.value.url == url
              && r.value.headers == headers
              && r.value.params == (if r.value.verb == GET then params else None)
              && r.value.json == (if r.value.verb in {POST, PUT, PATCH} then data else None)
  {
    if name == "GET" then Some(Request(GET, url, params, None, headers))
    else if name == "POST" then Some(Request(POST, url, None, data, headers))
    else if name == "PUT" then Some(Request(PUT, url, None, data, headers))
    else if name == "DELETE" then Some(Request(DELETE, url, None, None, headers))
    else if name == "PATCH" then Some(Request(PATCH, url, None, data, headers))
    else None
  }

  /** A response body: a JSON document, or bytes that `json()` cannot decode. */
  datatype Body = Decoded(value: Json) | Malformed

  datatype Response = Response(status: int, body: Body)

  /** `raise_for_status()` lets only 2xx statuses through. */
  predicate IsSuccess(status: int)
  {
    200 <= status < 300
  }

  /** The three `httpx.RequestError` clauses; all three are handled alike. */
  datatype TransportFailure = ConnectError | ReadTimeout | OtherRequestError

  /** What one attempt yields: a response with a status, or no response at all. */
  datatype AttemptOutcome = Responded(response: Response) | Failed(failure: TransportFailure)

  /** The network: the outcome of attempt `k`, for every `k`. */
  type Network = nat -> AttemptOutcome
}
