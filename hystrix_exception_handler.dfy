/**
 * `HystrixExceptionHandler`: a `HystrixRuntimeException` is rendered with a status chosen by
 * its failure type, and with its cause's message and class.
 */
module HystrixExceptionHandler {
  import opened Wrappers
  import opened Failures
  import opened ErrorViews
  import HttpStatus

  /** `HystrixRuntimeException.FailureType`. */
  datatype FailureType =
    | BadRequestException
    | CommandException
    | Timeout
    | ShortCircuit
    | RejectedThreadExecution
    | RejectedSemaphoreExecution
    | RejectedSemaphoreFallback

  /** The three rejection types: the command could not get a thread or a semaphore permit. */
  predicate Rejected(t: FailureType)
  {
    t == RejectedSemaphoreExecution || t == RejectedSemaphoreFallback || t == RejectedThreadExecution
  }

  /** A `HystrixRuntimeException`: its failure type and its cause. */
  datatype HystrixRuntime = HystrixRuntime(failureType: FailureType, cause: Failure)

  /** The status `hystrix` picks: 429 for a rejection, 408 for a timeout, 500 for everything else. */
  function StatusFor(t: FailureType): (status: int)
    ensures HttpStatus.IsKnown(status)
    ensures status == HttpStatus.TOO_MANY_REQUESTS <==> Rejected(t)
    ensures status == HttpStatus.REQUEST_TIMEOUT <==> t == Timeout
    ensures status == HttpStatus.INTERNAL_SERVER_ERROR <==> !Rejected(t) && t != Timeout
  {
    HttpStatus.NamedStatusesKnown();
    if Rejected(t) then HttpStatus.TOO_MANY_REQUESTS
    else if t == Timeout then HttpStatus.REQUEST_TIMEOUT
    else HttpStatus.INTERNAL_SERVER_ERROR
  }

  /**
   * `hystrix(e)`: the page carries the chosen status and its reason phrase, the cause's message
   * (absent when the cause has none) and, under `default` or `debug`, the cause's class name.
   */
  function Hystrix(env: Environment, e: HystrixRuntime): (v: ErrorView)
    ensures v.status == StatusFor(e.failureType)
    ensures Some(v.error) == HttpStatus.Reason(v.status)
    ensures v.message == Message(e.cause)
    ensures v.exception.Some? <==> ShowsDetails(env)
    ensures v.exception.Some? ==> v.exception.value == ClassName(e.cause)
  {
    RenderError(env, StatusFor(e.failureType), Message(e.cause), ClassName(e.cause))
  }

  /**
   * Only a rejection or a timeout leaves the 5xx range: the page reports a client-side 4xx
   * exactly for those, with the phrases "Too Many Requests" and "Request Timeout".
   */
  lemma OnlyRejectionAndTimeoutAre4xx(env: Environment, e: HystrixRuntime)
    ensures HttpStatus.Is4xx(Hystrix(env, e).status) <==> Rejected(e.failureType) || e.failureType == Timeout
    ensures Rejected(e.failureType) ==> Hystrix(env, e).error == "Too Many Requests"
    ensures e.failureType == Timeout ==> Hystrix(env, e).error == "Request Timeout"
  {
    var v := Hystrix(env, e);
    if Rejected(e.failureType) {
      TooManyRequestsPhrase(v);
    } else if e.failureType == Timeout {
      RequestTimeoutPhrase(v);
    }
  }

  lemma TooManyRequestsPhrase(v: ErrorView)
    requires v.status == HttpStatus.TOO_MANY_REQUESTS && Some(v.error) == HttpStatus.Reason(v.status)
    ensures v.error == "Too Many Requests"
  {
  }

  lemma RequestTimeoutPhrase(v: ErrorView)
    requires v.status == HttpStatus.REQUEST_TIMEOUT && Some(v.error) == HttpStatus.Reason(v.status)
    ensures v.error == "Request Timeout"
  {
  }
}
