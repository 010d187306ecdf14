/**
 * Header assembly of the client: `Content-Type: application/json` always, a
 * bearer `Authorization` header when a non-empty token is configured, and the
 * caller's headers merged last so that they win on every key they name.
 * Keys are compared exactly, as Python dictionary keys are.
 */
module Headers {
  import opened Options

  type HeaderMap = map<string, string>

  const ContentType: string := "Content-Type"
  const Authorization: string := "Authorization"
  const JsonMediaType: string := "application/json"

  /** Python truthiness of `auth_token`: present and not the empty string. */
  predicate HasToken(authToken: Option<string>)
  {
    authToken.Some? && authToken.value != ""
  }

  /** The caller's headers; `None` contributes nothing. */
  function Given(overrides: Option<HeaderMap>): HeaderMap
  {
    overrides.GetOr(map[])
  }

  /** The headers before the caller's are merged in. */
  function DefaultHeaders(authToken: Option<string>): (d: HeaderMap)
    ensures d.Keys == {ContentType} + (if HasToken(authToken) then {Authorization} else {})
    ensures d[ContentType] == JsonMediaType
    ensures HasToken(authToken) ==> d[Authorization] == "Bearer " + authToken.value
  {
    var base := map[ContentType := JsonMediaType];
    if HasToken(authToken) then base[Authorization := "Bearer " + authToken.value] else base
  }

  /** The headers sent with every attempt of a request. */
  function GetHeaders(authToken: Option<string>, overrides: Option<HeaderMap>): (h: HeaderMap)
    ensures h.Keys == {ContentType} + (if HasToken(authToken) then {Authorization} else {}) + Given(overrides).Keys
    ensures forall k | k in Given(overrides) :: h[k] == Given(overrides)[k]
    ensures ContentType !in Given(overrides) ==> h[ContentType] == JsonMediaType
    ensures Authorization !in Given(overrides) ==>
              (Authorization in h <==> HasToken(authToken))
              && (HasToken(authToken) ==> h[Authorization] == "Bearer " + authToken.value)
  {
    var defaults := DefaultHeaders(authToken);
    if overrides.Some? && overrides.value != map[] then defaults + overrides.value else defaults
  }

  /**
   * A header value seen key by key: the caller's value if given, otherwise the
   * default for the two keys the client sets, otherwise absent.
   */
  function HeaderValue(authToken: Option<string>, overrides: Option<HeaderMap>, key: string): Option<string>
  {
    if key in Given(overrides) then Some(Given(overrides)[key])
    else if key == ContentType then Some(JsonMediaType)
    else if key == Authorization && HasToken(authToken) then Some("Bearer " + authToken.value)
    else None
  }

  /** The assembled headers agree with the key-by-key reading on every key. */
  lemma GetHeadersPointwise(authToken: Option<string>, overrides: Option<HeaderMap>, key: string)
    ensures var h := GetHeaders(authToken, overrides);
            HeaderValue(authToken, overrides, key) == (if key in h then Some(h[key]) else None)
  {
  }

  /** Passing no headers and passing an empty mapping are the same request. */
  lemma NoOverridesSameAsEmpty(authToken: Option<string>)
    ensures GetHeaders(authToken, None) == GetHeaders(authToken, Some(map[]))
  {
  }

  /** A caller naming both keys the client sets replaces every default: the headers sent are exactly the caller's. */
  lemma OverridesWin(authToken: Option<string>, overrides: HeaderMap)
    requires ContentType in overrides && Authorization in overrides
    ensures GetHeaders(authToken, Some(overrides)) == overrides
  {
  }
}
