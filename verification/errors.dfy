/**
 * What a call to the client can raise. `UnsupportedMethod` is the plain
 * `ValueError` of the method dispatch; the other three are `APIClientError`,
 * which carries a message and, for an HTTP status error only, the request and
 * the response.
 */
module Errors {
  import opened Options
  import opened Http
  import Decimal

  datatype ClientError =
    | UnsupportedMethod(name: string)
    | DecodeError
    | StatusError(request: Request, response: Response)
    | RetriesExhausted(name: string, url: string, retries: int)

  /** Every error but the method dispatch's `ValueError` is an `APIClientError`. */
  predicate IsAPIClientError(e: ClientError)
  {
    !e.UnsupportedMethod?
  }

  /** The `request` attribute of an `APIClientError`: set only for an HTTP status error. */
  function RequestAttr(e: ClientError): (r: Option<Request>)
    requires IsAPIClientError(e)
    ensures r.Some? <==> e.StatusError?
    ensures r.Some? ==> r.value == e.request
  {
    if e.StatusError? then Some(e.request) else None
  }

  /** The `response` attribute of an `APIClientError`: set only for an HTTP status error. */
  function ResponseAttr(e: ClientError): (r: Option<Response>)
    requires IsAPIClientError(e)
    ensures r.Some? <==> e.StatusError?
    ensures r.Some? ==> r.value == e.response
  {
    if e.StatusError? then Some(e.response) else None
  }

  const UnsupportedPrefix: string := "Unsupported HTTP method: "
  const DecodeMessage: string := "Error while decoding response as JSON"
  const ExhaustedPrefix: string := "Failed to complete "
  const ExhaustedSuffix: string := " attempts."

  /** The exception's message; for a status error it is httpx's own text, which is not modelled. */
  function Message(e: ClientError): (m: string)
    requires !e.StatusError?
    ensures e.UnsupportedMethod? ==>
              |m| >= |UnsupportedPrefix| && m[..|UnsupportedPrefix|] == UnsupportedPrefix && m[|UnsupportedPrefix|..] == e.name
    ensures e.DecodeError? ==> m == DecodeMessage
    ensures e.RetriesExhausted? ==> |m| >= |ExhaustedPrefix| && m[..|ExhaustedPrefix|] == ExhaustedPrefix
  {
    match e
    case UnsupportedMethod(name) => UnsupportedPrefix + name
    case DecodeError => DecodeMessage
    case RetriesExhausted(name, url, retries) =>
      ExhaustedPrefix + name + " request to " + url + " after " + Decimal.IntToDecimal(retries) + ExhaustedSuffix
  }

  /**
   * The message tells the three kinds apart, and for an unsupported method it
   * names the method, so equal messages mean the same kind (and, for that kind,
   * the same method).
   */
  lemma MessageIdentifiesError(e1: ClientError, e2: ClientError)
    requires !e1.StatusError? && !e2.StatusError?
    requires Message(e1) == Message(e2)
    ensures e1.UnsupportedMethod? <==> e2.UnsupportedMethod?
    ensures e1.DecodeError? <==> e2.DecodeError?
    ensures e1.RetriesExhausted? <==> e2.RetriesExhausted?
    ensures e1.UnsupportedMethod? ==> e1 == e2
  {
    var m := Message(e1);
    assert UnsupportedPrefix[0] == 'U' && DecodeMessage[0] == 'E' && ExhaustedPrefix[0] == 'F';
    assert e1.UnsupportedMethod? ==> m[0] == 'U';
    assert e1.DecodeError? ==> m[0] == 'E';
    assert e1.RetriesExhausted? ==> m[0] == 'F';
    assert e2.UnsupportedMethod? ==> m[0] == 'U';
    assert e2.DecodeError? ==> m[0] == 'E';
    assert e2.RetriesExhausted? ==> m[0] == 'F';
  }

  /**
   * The exhaustion message names the method right after its fixed prefix, the
   * URL after the method, and ends with the retry count, written so that it
   * reads back as exactly that count.
   */
  lemma ExhaustedMessageNamesCall(name: string, url: string, retries: int)
    ensures var msg := Message(RetriesExhausted(name, url, retries));
            var digits := Decimal.IntToDecimal(retries);
            && msg[..|ExhaustedPrefix| + |name|] == ExhaustedPrefix + name
            && msg[|ExhaustedPrefix| + |name| + |" request to "|..][..|url|] == url
            && msg[|msg| - |ExhaustedSuffix| - |digits|..] == digits + ExhaustedSuffix
            && Decimal.ParseInt(digits) == Some(retries)
  {
    var digits := Decimal.IntToDecimal(retries);
    var msg := Message(RetriesExhausted(name, url, retries));
    assert msg == (ExhaustedPrefix + name) + " request to " + url + " after " + digits + ExhaustedSuffix;
    assert msg[|ExhaustedPrefix| + |name| + |" request to "|..] == url + " after " + digits + ExhaustedSuffix;
    Decimal.IntDecimalRoundTrip(retries);
  }
}
