/**
 * The HTTP side of the provider clients (`BaseCurlApi`): how a transfer's
 * outcome is classified into a response and an error message, which
 * responses count as valid, and how a JSON body is checked.
 */
module CurlApi {
  import opened PhpStrings
  import opened PhpValues
  import opened Apis

  /**
   * What the transport reports for one request: a completed transfer with
   * its body, or a failure with its status code (a curl error number or an
   * HTTP status) and the body that came with it.
   */
  datatype Transfer = Completed(body: string) | Failed(statusCode: int, body: string)

  /** What `makeRequest` returns. */
  datatype Response =
    | CurlResponse(body: string)   // an `ACurlResponse`
    | NullResponse                 // null
    | FalseResponse                // false
    | ErrorBody(j: Json)           // the decoded body of a 400 response

  /** The message for a failed name lookup (curl error 6). */
  const HostMessage: string := "6 - Couldn't resolve host or name lookup timed out"

  /** The fixed message for an HTTP error status, where there is one. */
  function StatusMessage(code: int): (m: Option<string>)
    ensures m.Some? <==> code in {400, 401, 403, 404}
  {
    if code == 400 then Some("400 - The request was invalid")
    else if code == 401 then Some("401 - The action requires a logged in user")
    else if code == 403 then Some("403 - The current user is not allowed to perform this action")
    else if code == 404 then Some("404 - The requested resource was not found")
    else None
  }

  /**
   * The message for a 400 response: the decoded body's `error` field with
   * `-` and `_` turned into spaces and its first letter upper-cased, or the
   * fixed message when there is no such field.
   */
  function BadRequestMessage(decoded: Option<Json>): (m: string)
  {
    if decoded.Some? && !Field(decoded.value, "error").Null? then
      Ucfirst(ReplaceChars(StrForm(Field(decoded.value, "error")), {'-', '_'}, ' '))
    else StatusMessage(400).value
  }

  /** A response together with the error message it sets; None leaves the error as it was. */
  datatype Classified = Classified(response: Response, error: Option<string>)

  /** How `makeRequest` classifies a transfer. */
  function Classify(t: Transfer, decode: string -> Option<Json>): (c: Classified)
    ensures t.Completed? ==> c == Classified(CurlResponse(t.body), None)
    ensures t.Failed? && t.statusCode == 6 ==> c == Classified(FalseResponse, Some(HostMessage))
    ensures t.Failed? && t.statusCode == 400 ==>
              c.error == Some(BadRequestMessage(decode(t.body)))
              && (c.response == NullResponse <==> decode(t.body) in {None, Some(Null)})
              && (c.response != NullResponse ==> c.response == ErrorBody(decode(t.body).value))
    ensures t.Failed? && t.statusCode in {401, 403, 404} ==> c == Classified(NullResponse, StatusMessage(t.statusCode))
    ensures t.Failed? && t.statusCode !in {6, 400, 401, 403, 404} ==> c == Classified(NullResponse, None)
  {
    match t
    case Completed(body) => Classified(CurlResponse(body), None)
    case Failed(code, body) =>
      if code == 6 then Classified(FalseResponse, Some(HostMessage))
      else if code == 400 then
        var decoded := decode(body);
        var response := if decoded.None? || decoded.value.Null? then NullResponse else ErrorBody(decoded.value);
        Classified(response, Some(BadRequestMessage(decoded)))
      else Classified(NullResponse, StatusMessage(code))
  }

  /**
   * `makeRequest($url)`: performs the transfer (given here as its outcome)
   * and records the error message of a failure on the client.
   */
  method MakeRequest(api: BaseApi, t: Transfer, decode: string -> Option<Json>) returns (response: Response)
    modifies api
    ensures response == Classify(t, decode).response
    ensures api.error == if Classify(t, decode).error.Some? then Classify(t, decode).error else old(api.error)
    ensures api.cacheDuration == old(api.cacheDuration)
  {
    var c := Classify(t, decode);
    response := c.response;
    if c.error.Some? {
      api.error := c.error;
    }
  }

  /** `checkResponse($response)`: the response is an `ACurlResponse`. */
  predicate CheckResponse(r: Response)
  {
    r.CurlResponse?
  }

  /** `$response === false`: the host lookup failed, or a 400 body decoded to `false`. */
  predicate IsFalse(r: Response)
  {
    r == FalseResponse || r == ErrorBody(Bool(false))
  }

  /**
   * A response passes `checkResponse` exactly when the transfer completed;
   * it is `false` exactly when the host could not be resolved, and in every
   * other failure it is null or a decoded error body.
   */
  lemma ClassifiedResponses(t: Transfer, decode: string -> Option<Json>)
    ensures CheckResponse(Classify(t, decode).response) <==> t.Completed?
    ensures Classify(t, decode).response == FalseResponse <==> t.Failed? && t.statusCode == 6
    ensures IsFalse(Classify(t, decode).response) <==>
              t.Failed? && (t.statusCode == 6 || (t.statusCode == 400 && decode(t.body) == Some(Bool(false))))
    ensures Classify(t, decode).response.ErrorBody? ==> t.Failed? && t.statusCode == 400
  {
  }

  /** The message for a body that is not JSON. */
  const NotJsonMessage: string := "Response should be in json format"

  /**
   * `processResponse($response)`: decodes the body; a body that is not JSON
   * or that carries an `error` field gives `false` and sets the error, and
   * anything else is returned decoded.
   */
  method ProcessResponse(api: BaseApi, body: string, decode: string -> Option<Json>) returns (r: Option<Json>)
    modifies api
    ensures r.Some? <==> decode(body).Some? && Field(decode(body).value, "error").Null?
    ensures r.Some? ==> r.value == decode(body).value && api.error == old(api.error)
    ensures decode(body).None? ==> api.error == Some(NotJsonMessage)
    ensures decode(body).Some? && !Field(decode(body).value, "error").Null? ==>
              api.error == Some(StrForm(Field(decode(body).value, "error")))
    ensures api.cacheDuration == old(api.cacheDuration)
  {
    var decoded := decode(body);
    if decoded.None? {
      api.error := Some(NotJsonMessage);
      return None;
    }
    var err := Field(decoded.value, "error");
    if !err.Null? {
      api.error := Some(StrForm(err));
      return None;
    }
    return decoded;
  }
}
