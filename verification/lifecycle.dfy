/**
 * The client's lifecycle: `close()` releases the connection pool, and the
 * `async with` protocol returns the client on entry and closes it on exit.
 * The pool itself is not modelled; `APIClient.closes` counts the calls to `close()`.
 */
module Lifecycle {
  import opened Client

  /** How the body of an `async with` block ended. */
  datatype BlockEnd<T, E> = Normal(value: T) | Raising(error: E)

  /** `close()`: one more call to close, nothing else about the client changes. */
  function Close(c: APIClient): (c': APIClient)
    ensures c'.closes == c.closes + 1
    ensures c'.baseUrl == c.baseUrl && c'.timeout == c.timeout && c'.retries == c.retries && c'.authToken == c.authToken
  {
    c.(closes := c.closes + 1)
  }

  /** `__aenter__`: the block works with the client itself. */
  function Enter(c: APIClient): (r: APIClient)
    ensures r == c
  {
    c
  }

  /**
   * `__aexit__`: closes the client whatever the block did, and returns `None`,
   * so an exception raised in the block is not suppressed.
   */
  function Exit<T, E>(c: APIClient, end: BlockEnd<T, E>): (r: (APIClient, BlockEnd<T, E>))
    ensures r.0.closes == c.closes + 1
    ensures r.1 == end
  {
    (Close(c), end)
  }

  /** `async with client as cl: <body>`. */
  function Scoped<T, E>(c: APIClient, body: APIClient -> (APIClient, BlockEnd<T, E>)): (r: (APIClient, BlockEnd<T, E>))
    ensures r.0.closes == body(c).0.closes + 1
    ensures r.1 == body(c).1
  {
    var (after, end) := body(Enter(c));
    Exit(after, end)
  }

  /**
   * A block that neither closes the client itself nor changes it ends with the
   * client closed exactly once, whether the block returned or raised, and what
   * it raised reaches the caller unchanged.
   */
  lemma ScopeClosesExactlyOnce<T, E>(c: APIClient, body: APIClient -> (APIClient, BlockEnd<T, E>))
    requires body(c).0 == c
    ensures Scoped(c, body).0 == Close(c)
    ensures body(c).1.Raising? ==> Scoped(c, body).1 == Raising(body(c).1.error)
  {
  }
}
