/**
 * `BlogHttpClient`: every call to `RxBlogHttpClient` is deferred and re-subscribed under one
 * retry policy that skips client errors reported as `ResponseStatusException`, with a 6 s
 * budget, a configured retry maximum and first backoff, and a 10 s cap.
 */
module BlogHttp {
  import opened Wrappers
  import opened Failures
  import opened Retry
  import HttpStatus
  import RxBlogHttp

  /** The policy built in the constructor from the configured retry maximum and first backoff. */
  function BlogHttpPolicy(retryMax: nat, firstBackoffMs: nat): RetryPolicy
  {
    RetryPolicy(NotClientStatusError, 6000, retryMax, firstBackoffMs, BackoffCapMs)
  }

  /**
   * The filter of `BlogHttpClient`: only a `ResponseStatusException` with a 4xx status is not
   * retried; a `ResponseStatusException` with any other status, and every other failure, is.
   */
  lemma StatusFilter(retryMax: nat, firstBackoffMs: nat, f: Failure)
    ensures Admits(BlogHttpPolicy(retryMax, firstBackoffMs).filter, f) <==> !(f.StatusError? && HttpStatus.Is4xx(f.status))
  {
  }

  /** What the retry sees of one command execution: a failure as it leaves the command boundary. */
  function Unwrapped<T>(o: Outcome<T>): (u: Outcome<T>)
    ensures o.Done? ==> u == o
    ensures o.Failed? ==> u == Failed(CommandBoundary(o.failure))
  {
    match o
    case Done(_) => o
    case Failed(f) => Failed(CommandBoundary(f))
  }

  /** The sequence of command executions the deferred publisher issues, as the retry sees them. */
  function Deferred<T>(replies: nat -> Attempt<T>): nat -> Attempt<T>
  {
    (j: nat) => Attempt(Unwrapped(replies(j).outcome), replies(j).tookMs)
  }

  /**
   * Any of `findById`, `streamAll`, `findByQuery`, `findByCategories`, `findByTag`, `findTags`
   * and `findCategories`, whose retry sits outside the deferred publisher, so that every retry
   * issues a fresh command execution: `replies(j)` is what the j-th execution of the
   * underlying `RxBlogHttpClient` command returns.
   */
  function Call<T>(retryMax: nat, firstBackoffMs: nat, replies: nat -> Attempt<T>): Run<T>
  {
    Execute(BlogHttpPolicy(retryMax, firstBackoffMs), Deferred(replies))
  }

  /**
   * What the retry of `findAll` sees: its retry sits inside the deferred publisher, around the
   * one command execution, so a retry re-subscribes to that execution's result, which hands
   * back what it already produced at once. The upstream is asked only once.
   */
  function Replayed<T>(reply: Attempt<T>): nat -> Attempt<T>
  {
    (j: nat) => Attempt(Unwrapped(reply.outcome), if j == 0 then reply.tookMs else 0)
  }

  /** `findAll(pageable)`: one command execution answering `reply`, replayed on every retry. */
  function FindAllCall<T>(retryMax: nat, firstBackoffMs: nat, reply: Attempt<T>): Run<T>
  {
    Execute(BlogHttpPolicy(retryMax, firstBackoffMs), Replayed(reply))
  }

  /**
   * A retry of `findAll` cannot recover: the outcome is decided by the one execution. A
   * success is passed on after one call; a failure the policy retries ends, however often it
   * was re-subscribed, in a `RetryExhaustedException` around that same failure; any other
   * failure is passed on after one call.
   */
  lemma FindAllDecidedByFirstReply<T>(retryMax: nat, firstBackoffMs: nat, reply: Attempt<T>)
    ensures var r := FindAllCall(retryMax, firstBackoffMs, reply);
      && (reply.outcome.Done? ==> r == Run(reply.outcome, 1, []))
      && (reply.outcome.Failed? && !RetryableStatus(CommandBoundary(reply.outcome.failure)) ==>
            r == Run(Failed(CommandBoundary(reply.outcome.failure)), 1, []))
      && (reply.outcome.Failed? && RetryableStatus(CommandBoundary(reply.outcome.failure)) ==>
            && 1 <= r.calls <= retryMax + 1
            && r.outcome == Failed(RetryExhausted(CommandBoundary(reply.outcome.failure))))
  {
    var p := BlogHttpPolicy(retryMax, firstBackoffMs);
    var script := Replayed(reply);
    assert script(0) == Attempt(Unwrapped(reply.outcome), reply.tookMs);
    if reply.outcome.Failed? {
      var f := CommandBoundary(reply.outcome.failure);
      StatusFilter(retryMax, firstBackoffMs, f);
      if RetryableStatus(f) {
        forall j: nat
          ensures script(j).outcome.Failed? && Admits(p.filter, script(j).outcome.failure)
        {
          assert script(j).outcome == Failed(f);
        }
        ExhaustedWhenAllAdmitted(p, script);
      } else {
        RejectedFailureNotRetried(p, script);
      }
    }
  }

  /**
   * A failed execution followed by a success yields the success after exactly one retry,
   * which waits the first backoff, provided the policy retries the failure, a retry is allowed
   * and it fits in the 6 s budget.
   */
  lemma RetriedOnceThenSuccess<T>(retryMax: nat, firstBackoffMs: nat, replies: nat -> Attempt<T>, v: T)
    requires retryMax >= 1
    requires replies(0).outcome.Failed? && RetryableStatus(CommandBoundary(replies(0).outcome.failure))
    requires replies(0).tookMs + firstBackoffMs <= 6000
    requires replies(1).outcome == Done(v)
    ensures Call(retryMax, firstBackoffMs, replies)
      == Run(Done(v), 2, [Scheduled(1, firstBackoffMs, replies(0).tookMs + firstBackoffMs)])
  {
    var p := BlogHttpPolicy(retryMax, firstBackoffMs);
    var script := Deferred(replies);
    var resume := replies(0).tookMs + firstBackoffMs;
    FirstBackoff(p);
    assert script(0).outcome == Failed(CommandBoundary(replies(0).outcome.failure));
    assert RetriesAfter(p, script, 0, 0);
    DriveRetrying(p, script, 0, 0);
    assert script(1).outcome == Done(v);
    assert Drive(p, script, 1, resume) == Run(Done(v), 2, []);
  }

  /**
   * A client error answered to a GET with a status handler is not retried: the call ends after
   * that one execution with the `ResponseStatusException` carrying the same status.
   */
  lemma ClientErrorNotRetried<T>(retryMax: nat, firstBackoffMs: nat, replies: nat -> Attempt<T>, code: int, decoded: Outcome<T>)
    requires HttpStatus.IsKnown(code) && HttpStatus.Is4xx(code)
    requires replies(0).outcome == RxBlogHttp.Retrieve(RxBlogHttp.Answered(code, decoded))
    ensures Call(retryMax, firstBackoffMs, replies) == Run(Failed(StatusError(code, None)), 1, [])
  {
    assert Deferred(replies)(0).outcome == Failed(StatusError(code, None));
  }

  /**
   * A server error answered to a GET with a status handler is retried when its body cannot be
   * decoded (a `text/plain` error page, say): followed by a success, the call yields the
   * success after one retry that waits the first backoff.
   */
  lemma UndecodableServerErrorThenSuccess<T>(retryMax: nat, firstBackoffMs: nat, replies: nat -> Attempt<T>, code: int, contentType: string, v: T)
    requires retryMax >= 1
    requires HttpStatus.IsKnown(code) && HttpStatus.IsError(code) && !HttpStatus.Is4xx(code)
    requires replies(0).outcome == RxBlogHttp.Retrieve(RxBlogHttp.Answered(code, Failed(RxBlogHttp.UnsupportedMediaType(contentType))))
    requires replies(0).tookMs + firstBackoffMs <= 6000
    requires replies(1).outcome == Done(v)
    ensures Call(retryMax, firstBackoffMs, replies)
      == Run(Done(v), 2, [Scheduled(1, firstBackoffMs, replies(0).tookMs + firstBackoffMs)])
  {
    RetriedOnceThenSuccess(retryMax, firstBackoffMs, replies, v);
  }

  /**
   * `streamAll` has no status handler, so its client errors arrive as `WebClientResponseException`,
   * which the filter does not exempt: unlike the other calls, a 4xx is retried, and followed by a
   * success the call yields the success after one retry.
   */
  lemma StreamClientErrorRetried<T>(retryMax: nat, firstBackoffMs: nat, replies: nat -> Attempt<T>, code: int, decoded: Outcome<T>, v: T)
    requires retryMax >= 1
    requires HttpStatus.IsKnown(code) && HttpStatus.Is4xx(code)
    requires replies(0).outcome == RxBlogHttp.RetrieveStream(RxBlogHttp.Answered(code, decoded))
    requires replies(0).tookMs + firstBackoffMs <= 6000
    requires replies(1).outcome == Done(v)
    ensures Call(retryMax, firstBackoffMs, replies)
      == Run(Done(v), 2, [Scheduled(1, firstBackoffMs, replies(0).tookMs + firstBackoffMs)])
  {
    RetriedOnceThenSuccess(retryMax, firstBackoffMs, replies, v);
  }

  /**
   * When every execution fails with a failure the policy retries, the call ends in a
   * `RetryExhaustedException` around the last failure, whose message is that failure's
   * `toString()`, after at most `retryMax + 1` executions.
   */
  lemma ExhaustedReportsLastFailure<T>(retryMax: nat, firstBackoffMs: nat, replies: nat -> Attempt<T>)
    requires forall j ::
      replies(j).outcome.Failed? && RetryableStatus(CommandBoundary(replies(j).outcome.failure))
    ensures var r := Call(retryMax, firstBackoffMs, replies);
      && 1 <= r.calls <= retryMax + 1
      && r.outcome == Failed(RetryExhausted(CommandBoundary(replies(r.calls - 1).outcome.failure)))
      && Message(r.outcome.failure) == Some(Describe(CommandBoundary(replies(r.calls - 1).outcome.failure)))
  {
    var p := BlogHttpPolicy(retryMax, firstBackoffMs);
    var script := Deferred(replies);
    forall j: nat
      ensures script(j).outcome.Failed? && Admits(p.filter, script(j).outcome.failure)
    {
      assert script(j).outcome == Failed(CommandBoundary(replies(j).outcome.failure));
    }
    ExhaustedWhenAllAdmitted(p, script);
    var r := Execute(p, script);
    assert script(r.calls - 1).outcome == Failed(CommandBoundary(replies(r.calls - 1).outcome.failure));
  }

  /**
   * The budget of every call but `findAll`: at most `retryMax` retries, each a fresh execution; the n-th retry waits the configured
   * first backoff doubled n - 1 times, capped at 10 s; waits never shrink; no retried execution
   * starts after 6 s.
   */
  lemma CallBudget<T>(retryMax: nat, firstBackoffMs: nat, replies: nat -> Attempt<T>)
    ensures var r := Call(retryMax, firstBackoffMs, replies);
      && r.calls == |r.retries| + 1 <= retryMax + 1
      && (forall i :: 0 <= i < |r.retries| ==>
            r.retries[i].delayMs <= firstBackoffMs * Pow2(i)
            && r.retries[i].delayMs <= BackoffCapMs
            && r.retries[i].resumeAtMs <= 6000)
      && (forall i, j :: 0 <= i <= j < |r.retries| ==> r.retries[i].delayMs <= r.retries[j].delayMs)
  {
    RetryBounds(BlogHttpPolicy(retryMax, firstBackoffMs), Deferred(replies));
  }
}
