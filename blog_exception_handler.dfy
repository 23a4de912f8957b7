/**
 * `BlogExceptionHandler`: a runtime exception is rendered with the upstream status when it is a
 * `WebClientResponseException` and with 500 otherwise; a missing message is shown as empty.
 */
module BlogExceptionHandler {
  import opened Wrappers
  import opened Failures
  import opened ErrorViews
  import opened Retry
  import HttpStatus
  import BlogHttp
  import RxBlogHttp

  /**
   * `handle(e)`. Reading a `WebClientResponseException`'s status goes through
   * `HttpStatus.valueOf`, so a code without a constant makes the handler itself throw; that
   * is the `Err` case.
   */
  function Handle(env: Environment, e: Failure): (r: Result<ErrorView, Failure>)
    ensures r.Err? <==> e.ResponseError? && !HttpStatus.IsKnown(e.status)
    ensures r.Err? ==> r.error == NoMatchingConstant(e.status)
    ensures r.Ok? && e.ResponseError? ==> r.value.status == e.status
    ensures !e.ResponseError? ==> r.Ok? && r.value.status == HttpStatus.INTERNAL_SERVER_ERROR
    ensures r.Ok? ==>
      && Some(r.value.error) == HttpStatus.Reason(r.value.status)
      && r.value.message == Some(Message(e).GetOr(""))
      && (r.value.exception.Some? <==> ShowsDetails(env))
      && (r.value.exception.Some? ==> r.value.exception.value == ClassName(e))
  {
    HttpStatus.NamedStatusesKnown();
    var message := Some(Message(e).GetOr(""));
    if e.ResponseError? then
      match HttpStatus.ValueOf(e.status)
      case Ok(_) => Ok(RenderError(env, e.status, message, ClassName(e)))
      case Err(_) => Err(NoMatchingConstant(e.status))
    else
      Ok(RenderError(env, HttpStatus.INTERNAL_SERVER_ERROR, message, ClassName(e)))
  }

  /** The page always has a message: an exception without one is shown with the empty string. */
  lemma MessageNeverMissing(env: Environment, e: Failure)
    requires Handle(env, e).Ok?
    ensures Handle(env, e).value.message.Some?
    ensures Message(e).None? ==> Handle(env, e).value.message == Some("")
  {
  }

  /**
   * A `BlogHttpClient` call whose every execution fails retryably is rendered as a 500
   * "Internal Server Error" page whose message is the last failure's `toString()`, and whose
   * exception, when shown, is the `RetryExhaustedException`.
   */
  lemma ExhaustedCallRendersLastFailure<T>(env: Environment, retryMax: nat, firstBackoffMs: nat, replies: nat -> Attempt<T>)
    requires forall j ::
      replies(j).outcome.Failed? && RetryableStatus(CommandBoundary(replies(j).outcome.failure))
    ensures var r := BlogHttp.Call(retryMax, firstBackoffMs, replies);
      && r.outcome.Failed? && r.calls >= 1
      && Handle(env, r.outcome.failure) == Ok(ErrorView(
           500, "Internal Server Error",
           Some(Describe(CommandBoundary(replies(r.calls - 1).outcome.failure))),
           if ShowsDetails(env) then Some("reactor.retry.RetryExhaustedException") else None))
  {
    var r := BlogHttp.Call(retryMax, firstBackoffMs, replies);
    BlogHttp.ExhaustedReportsLastFailure(retryMax, firstBackoffMs, replies);
    HandleExhausted(env, CommandBoundary(replies(r.calls - 1).outcome.failure));
  }

  /** A call whose every execution fails with the same retried failure `f` renders `f`'s `toString()`. */
  lemma SameFailurePage<T>(env: Environment, retryMax: nat, firstBackoffMs: nat, replies: nat -> Attempt<T>, f: Failure)
    requires RetryableStatus(CommandBoundary(f))
    requires forall j :: replies(j).outcome == Failed(f)
    ensures BlogHttp.Call(retryMax, firstBackoffMs, replies).outcome.Failed?
    ensures Handle(env, BlogHttp.Call(retryMax, firstBackoffMs, replies).outcome.failure) == Ok(ErrorView(
      500, "Internal Server Error", Some(Describe(CommandBoundary(f))),
      if ShowsDetails(env) then Some("reactor.retry.RetryExhaustedException") else None))
  {
    ExhaustedCallRendersLastFailure(env, retryMax, firstBackoffMs, replies);
  }

  /**
   * An entry page whose every GET answers a server error with a body no reader accepts (the
   * `text/plain` error page of an unavailable API, say): the status handler lets the body
   * through, decoding it fails, that failure is retried until the budget runs out, and the page
   * shows 500 with the decoder's message, whatever the upstream status.
   */
  lemma UndecodableServerErrorPage<T>(env: Environment, retryMax: nat, firstBackoffMs: nat, replies: nat -> Attempt<T>, code: int, contentType: string)
    requires HttpStatus.IsKnown(code) && HttpStatus.IsError(code) && !HttpStatus.Is4xx(code)
    requires forall j ::
      replies(j).outcome == RxBlogHttp.Retrieve(RxBlogHttp.Answered(code, Failed(RxBlogHttp.UnsupportedMediaType(contentType))))
    ensures BlogHttp.Call(retryMax, firstBackoffMs, replies).outcome.Failed?
    ensures Handle(env, BlogHttp.Call(retryMax, firstBackoffMs, replies).outcome.failure) == Ok(ErrorView(
      500, "Internal Server Error",
      Some("org.springframework.web.reactive.function.UnsupportedMediaTypeException" + ": "
           + ("Content type '" + contentType + "' not supported")),
      if ShowsDetails(env) then Some("reactor.retry.RetryExhaustedException") else None))
  {
    var f := RxBlogHttp.UnsupportedMediaType(contentType);
    assert RxBlogHttp.Retrieve<T>(RxBlogHttp.Answered(code, Failed(f))) == Failed(f);
    SameFailurePage(env, retryMax, firstBackoffMs, replies, f);
    UnsupportedMediaTypeDescribed(contentType);
  }

  /**
   * A `streamAll` page whose every GET answers an error status: without a status handler each
   * becomes a `WebClientResponseException`, retried until the budget runs out (a client error
   * included), and the page shows 500 with that exception's `toString()`.
   */
  lemma ErrorStatusStreamPage<T>(env: Environment, retryMax: nat, firstBackoffMs: nat, replies: nat -> Attempt<T>, code: int, decoded: Outcome<T>)
    requires HttpStatus.IsKnown(code) && HttpStatus.IsError(code)
    requires forall j :: replies(j).outcome == RxBlogHttp.RetrieveStream(RxBlogHttp.Answered(code, decoded))
    ensures BlogHttp.Call(retryMax, firstBackoffMs, replies).outcome.Failed?
    ensures Handle(env, BlogHttp.Call(retryMax, firstBackoffMs, replies).outcome.failure) == Ok(ErrorView(
      500, "Internal Server Error",
      Some("org.springframework.web.reactive.function.client.WebClientResponseException: " + RxBlogHttp.ErroneousStatus(code)),
      if ShowsDetails(env) then Some("reactor.retry.RetryExhaustedException") else None))
  {
    var f := ResponseError(code, RxBlogHttp.ErroneousStatus(code));
    RxBlogHttp.StreamErrorStatus(code, decoded);
    SameFailurePage(env, retryMax, firstBackoffMs, replies, f);
    ResponseErrorDescribed(code, RxBlogHttp.ErroneousStatus(code));
  }

  lemma UnsupportedMediaTypeDescribed(contentType: string)
    ensures Describe(RxBlogHttp.UnsupportedMediaType(contentType))
      == "org.springframework.web.reactive.function.UnsupportedMediaTypeException" + ": "
         + ("Content type '" + contentType + "' not supported")
  {
  }

  lemma ResponseErrorDescribed(code: int, text: string)
    ensures Describe(ResponseError(code, text))
      == "org.springframework.web.reactive.function.client.WebClientResponseException: " + text
  {
  }

  lemma HandleExhausted(env: Environment, last: Failure)
    ensures Handle(env, RetryExhausted(last)) == Ok(ErrorView(
      500, "Internal Server Error", Some(Describe(last)),
      if ShowsDetails(env) then Some("reactor.retry.RetryExhaustedException") else None))
  {
    assert HttpStatus.Reason(500) == Some("Internal Server Error");
  }
}
