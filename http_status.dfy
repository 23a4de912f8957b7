/**
 * The HTTP status codes Spring's `HttpStatus` enumeration knows, with their reason phrases.
 * `HttpStatus.valueOf(code)` succeeds exactly for the codes `Reason` has a phrase for; where the enumeration
 * lists two constants for one code, the first one (the one `valueOf` returns) is kept.
 */
module HttpStatus {
  import opened Wrappers
  import Strings

  const OK := 200
  const NOT_MODIFIED := 304
  const REQUEST_TIMEOUT := 408
  const TOO_MANY_REQUESTS := 429
  const INTERNAL_SERVER_ERROR := 500

  /** `HttpStatus.valueOf(code).getReasonPhrase()` for the codes with a constant. */
  function Reason(code: int): Option<string>
  {
    match code
    case 100 => Some("Continue")
    case 101 => Some("Switching Protocols")
    case 102 => Some("Processing")
    case 103 => Some("Checkpoint")
    case 200 => Some("OK")
    case 201 => Some("Created")
    case 202 => Some("Accepted")
    case 203 => Some("Non-Authoritative Information")
    case 204 => Some("No Content")
    case 205 => Some("Reset Content")
    case 206 => Some("Partial Content")
    case 207 => Some("Multi-Status")
    case 208 => Some("Already Reported")
    case 226 => Some("IM Used")
    case 300 => Some("Multiple Choices")
    case 301 => Some("Moved Permanently")
    case 302 => Some("Found")
    case 303 => Some("See Other")
    case 304 => Some("Not Modified")
    case 305 => Some("Use Proxy")
    case 307 => Some("Temporary Redirect")
    case 308 => Some("Permanent Redirect")
    case 400 => Some("Bad Request")
    case 401 => Some("Unauthorized")
    case 402 => Some("Payment Required")
    case 403 => Some("Forbidden")
    case 404 => Some("Not Found")
    case 405 => Some("Method Not Allowed")
    case 406 => Some("Not Acceptable")
    case 407 => Some("Proxy Authentication Required")
    case 408 => Some("Request Timeout")
    case 409 => Some("Conflict")
    case 410 => Some("Gone")
    case 411 => Some("Length Required")
    case 412 => Some("Precondition Failed")
    case 413 => Some("Payload Too Large")
    case 414 => Some("URI Too Long")
    case 415 => Some("Unsupported Media Type")
    case 416 => Some("Requested range not satisfiable")
    case 417 => Some("Expectation Failed")
    case 418 => Some("I'm a teapot")
    case 419 => Some("Insufficient Space On Resource")
    case 420 => Some("Method Failure")
    case 421 => Some("Destination Locked")
    case 422 => Some("Unprocessable Entity")
    case 423 => Some("Locked")
    case 424 => Some("Failed Dependency")
    case 426 => Some("Upgrade Required")
    case 428 => Some("Precondition Required")
    case 429 => Some("Too Many Requests")
    case 431 => Some("Request Header Fields Too Large")
    case 451 => Some("Unavailable For Legal Reasons")
    case 500 => Some("Internal Server Error")
    case 501 => Some("Not Implemented")
    case 502 => Some("Bad Gateway")
    case 503 => Some("Service Unavailable")
    case 504 => Some("Gateway Timeout")
    case 505 => Some("HTTP Version not supported")
    case 506 => Some("Variant Also Negotiates")
    case 507 => Some("Insufficient Storage")
    case 508 => Some("Loop Detected")
    case 509 => Some("Bandwidth Limit Exceeded")
    case 510 => Some("Not Extended")
    case 511 => Some("Network Authentication Required")
    case _ => None
  }

  /** Whether the enumeration has a constant for `code`. */
  predicate IsKnown(code: int)
  {
    Reason(code).Some?
  }

  /** The statuses the blog client and its error pages name all have constants. */
  lemma NamedStatusesKnown()
    ensures IsKnown(OK) && IsKnown(NOT_MODIFIED) && IsKnown(REQUEST_TIMEOUT)
    ensures IsKnown(TOO_MANY_REQUESTS) && IsKnown(INTERNAL_SERVER_ERROR)
  {
  }

  /** Every code with a constant has three digits. */
  lemma KnownRange(code: int)
    requires IsKnown(code)
    ensures 100 <= code <= 599
  {
  }

  /** `HttpStatus#is4xxClientError`: the code lies in the client-error series. */
  predicate Is4xx(code: int)
  {
    400 <= code <= 499
  }

  /** `HttpStatus#isError`: the code lies in the client- or the server-error series. */
  predicate IsError(code: int)
  {
    400 <= code <= 599
  }

  /** `HttpStatus.valueOf(code).getReasonPhrase()`, or the message of the `IllegalArgumentException` it throws. */
  function ValueOf(code: int): (r: Result<string, string>)
    ensures r.Ok? <==> IsKnown(code)
    ensures r.Ok? ==> r.value == Reason(code).value
    ensures r.Err? ==> r.error == "No matching constant for [" + Strings.IntToString(code) + "]"
  {
    if IsKnown(code) then Ok(Reason(code).value)
    else Err("No matching constant for [" + Strings.IntToString(code) + "]")
  }
}
