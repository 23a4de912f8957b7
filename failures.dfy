/**
 * The exceptions that travel through the blog client, as values, and the predicates that
 * classify them for retrying and for the circuit breaker.
 */
module Failures {
  import opened Wrappers
  import opened Strings
  import HttpStatus

  datatype Failure =
      /** `WebClientResponseException`: the upstream answered with an error status. */
    | ResponseError(status: int, text: string)
      /** `ResponseStatusException(status[, reason])`. */
    | StatusError(status: int, reason: Option<string>)
      /** `HystrixBadRequestException(cause.getMessage(), cause)`: a failure the command does not count. */
    | BadRequest(cause: Failure)
      /** `reactor.retry.RetryExhaustedException(last)`. */
    | RetryExhausted(last: Failure)
      /** `IllegalStateException(message)`. */
    | IllegalState(text: string)
      /** Any other throwable (transport errors, decoding errors, ...): its class name and message. */
    | Other(className: string, detail: Option<string>)

  /** `getClass().getName()`. */
  function ClassName(f: Failure): string
  {
    match f
    case ResponseError(_, _) => "org.springframework.web.reactive.function.client.WebClientResponseException"
    case StatusError(_, _) => "org.springframework.web.server.ResponseStatusException"
    case BadRequest(_) => "com.netflix.hystrix.exception.HystrixBadRequestException"
    case RetryExhausted(_) => "reactor.retry.RetryExhaustedException"
    case IllegalState(_) => "java.lang.IllegalStateException"
    case Other(name, _) => name
  }

  /** The message of a `ResponseStatusException`: its status code and, when present, its quoted reason. */
  function StatusMessage(status: int, reason: Option<string>): string
  {
    "Response status " + IntToString(status)
      + (if reason.Some? then " with reason \"" + reason.value + "\"" else "")
  }

  /** `getMessage()`; `None` stands for `null`. */
  function Message(f: Failure): Option<string>
    decreases f, 0
  {
    match f
    case ResponseError(_, m) => Some(m)
    case StatusError(s, r) => Some(StatusMessage(s, r))
    case BadRequest(c) => Message(c)
      // a throwable built from a cause takes the cause's `toString()` as its message
    case RetryExhausted(last) => Some(Describe(last))
    case IllegalState(m) => Some(m)
    case Other(_, m) => m
  }

  /** `Throwable#toString()`: the class name, then `": "` and the message when there is one. */
  function Describe(f: Failure): (s: string)
    decreases f, 1
    ensures StartsWith(s, ClassName(f))
    ensures Message(f).None? <==> s == ClassName(f)
  {
    match Message(f)
    case None => ClassName(f)
    case Some(m) => ClassName(f) + ": " + m
  }

  /**
   * `Retryer.retryable` and `DefaultResilience.retryable` (two copies of one predicate), which is
   * also the breakers' `recordFailure`: false exactly for a `WebClientResponseException` whose
   * status is a client error. The answer holds for statuses with an `HttpStatus` constant; for
   * any other, the Java predicate throws in `getStatusCode()` (see `Retry.TestThrows`).
   */
  predicate Retryable(f: Failure)
  {
    match f
    case ResponseError(status, _) => !HttpStatus.Is4xx(status)
    case _ => true
  }

  /** The predicate `BlogHttpClient` retries on: false exactly for a `ResponseStatusException` with a 4xx status. */
  predicate RetryableStatus(f: Failure)
  {
    match f
    case StatusError(status, _) => !HttpStatus.Is4xx(status)
    case _ => true
  }

  /**
   * What a `@HystrixCommand` method hands to its subscriber: the command library unwraps a
   * `HystrixBadRequestException` to its cause and passes every other failure on unchanged.
   */
  function CommandBoundary(f: Failure): (g: Failure)
    ensures f.BadRequest? ==> g == f.cause
    ensures !f.BadRequest? ==> g == f
  {
    if f.BadRequest? then f.cause else f
  }

  /** Whether the command library counts a failure against its breaker: bad requests are not counted. */
  predicate CountedByCommand(f: Failure)
  {
    !f.BadRequest?
  }

  /** The `IllegalArgumentException` `HttpStatus.valueOf` throws for a code it has no constant for. */
  function NoMatchingConstant(code: int): (f: Failure)
    ensures f.Other? && f.detail.Some?
    ensures !HttpStatus.IsKnown(code) ==> f.detail == Some(HttpStatus.ValueOf(code).error)
  {
    Other("java.lang.IllegalArgumentException", Some("No matching constant for [" + IntToString(code) + "]"))
  }

  /** The outcome of one asynchronous call: a value or a failure. */
  datatype Outcome<+T> = Done(value: T) | Failed(failure: Failure)
}
