/** The exceptions the library throws: ApiException, an immutable record of a
    failed call (message, HTTP status code, parsed response headers, response
    body), and PHP's InvalidArgumentException for rejected arguments. */
module ApiExceptions {
  import opened Wrappers
  import opened PhpValues
  import opened HttpHeaders

  /** An ApiException; a null header array is None, a null body is VNull. */
  datatype ApiException = ApiException(
    message: string,
    code: int,
    responseHeaders: Option<HeaderMap>,
    responseBody: Value)
  {
    function GetMessage(): string { message }
    function GetCode(): int { code }
    function GetResponseHeaders(): Option<HeaderMap> { responseHeaders }
    function GetResponseBody(): Value { responseBody }
  }

  /** The constructor, with the source's defaults: an empty message, code 0,
      no headers and a null body. */
  function NewApiException(message: string := "", code: int := 0,
                           responseHeaders: Option<HeaderMap> := None,
                           responseBody: Value := VNull): (e: ApiException)
    ensures e.GetMessage() == message && e.GetCode() == code
    ensures e.GetResponseHeaders() == responseHeaders
    ensures e.GetResponseBody() == responseBody
  {
    ApiException(message, code, responseHeaders, responseBody)
  }

  /** What a call can throw. */
  datatype Exception =
    | ApiError(ex: ApiException)
    | InvalidArgument(message: string)

  /** The getters give back exactly what the constructor was given, and the
      defaults are "", 0, null and null. */
  lemma ApiExceptionFields(message: string, code: int, headers: Option<HeaderMap>, body: Value)
    ensures NewApiException(message, code, headers, body).GetResponseHeaders() == headers
    ensures NewApiException(message, code, headers, body).GetResponseBody() == body
    ensures NewApiException(message, code, headers, body).GetMessage() == message
    ensures NewApiException(message, code, headers, body).GetCode() == code
    ensures NewApiException() == ApiException("", 0, None, VNull)
  {
  }
}
