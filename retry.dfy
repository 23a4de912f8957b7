/**
 * The retry schedule that `Retryer`, `BlogHttpClient` and `DefaultResilience` configure
 * (`Retry.onlyIf(...).timeout(...).retryMax(...).backoff(Backoff.exponential(first, 10 s, 2, false))`),
 * and a driver that plays it against a scripted sequence of call outcomes. Time is counted in
 * milliseconds from the first subscription.
 */
module Retry {
  import opened Wrappers
  import opened Failures
  import HttpStatus
  import Strings

  /** The predicate a retry (or a breaker's `recordFailure`) is built from. */
  datatype ErrorFilter =
      /** `Retryer.retryable` / `DefaultResilience.retryable`. */
    | NotClientResponseError
      /** The `ResponseStatusException` predicate of `BlogHttpClient`. */
    | NotClientStatusError

  /**
   * Whether testing the filter on `f` throws: `retryable` reads a `WebClientResponseException`'s
   * status through `getStatusCode()`, that is `HttpStatus.valueOf`, which has no answer for a
   * code without a constant. (A `ResponseStatusException` holds an `HttpStatus`, so the other
   * filter never throws.)
   */
  predicate TestThrows(filter: ErrorFilter, f: Failure)
  {
    filter.NotClientResponseError? && f.ResponseError? && !HttpStatus.IsKnown(f.status)
  }

  /** Whether the filter lets `f` be retried: its test returns true, without throwing. */
  predicate Admits(filter: ErrorFilter, f: Failure)
  {
    && !TestThrows(filter, f)
    && match filter
       case NotClientResponseError => Retryable(f)
       case NotClientStatusError => RetryableStatus(f)
  }

  /**
   * What a failure the filter does not admit ends the operation with: the failure itself, or the
   * `IllegalArgumentException` the filter's test threw, which the retry passes on instead.
   */
  function Rejection(filter: ErrorFilter, f: Failure): (g: Failure)
    ensures TestThrows(filter, f) ==> g == NoMatchingConstant(f.status)
    ensures !TestThrows(filter, f) ==> g == f
  {
    if TestThrows(filter, f) then NoMatchingConstant(f.status) else f
  }

  datatype RetryPolicy = RetryPolicy(
    filter: ErrorFilter,
    timeoutMs: nat,
    maxRetries: nat,
    firstBackoffMs: nat,
    maxBackoffMs: nat)

  /** The cap every configured exponential backoff uses. */
  const BackoffCapMs: nat := 10000

  /** `Retryer`'s static policy: 8 s budget, at most 3 retries, 1 s doubling up to 10 s. */
  const RetryerPolicy := RetryPolicy(NotClientResponseError, 8000, 3, 1000, BackoffCapMs)

  function Pow2(k: nat): (r: nat)
    ensures r >= 1
  {
    if k == 0 then 1 else 2 * Pow2(k - 1)
  }

  lemma {:induction false} Pow2Monotone(i: nat, j: nat)
    requires i <= j
    ensures Pow2(i) <= Pow2(j)
  {
    if i < j {
      Pow2Monotone(i, j - 1);
    }
  }

  /**
   * The delay before retry number `iteration` (the first retry is iteration 1): the first
   * backoff multiplied by 2^(iteration-1), capped. There is no jitter.
   */
  function Backoff(p: RetryPolicy, iteration: nat): (d: nat)
    requires iteration >= 1
    ensures d <= p.maxBackoffMs
    ensures d <= p.firstBackoffMs * Pow2(iteration - 1)
    ensures d == p.maxBackoffMs || d == p.firstBackoffMs * Pow2(iteration - 1)
  {
    var grown := p.firstBackoffMs * Pow2(iteration - 1);
    if grown <= p.maxBackoffMs then grown else p.maxBackoffMs
  }

  /** Later retries never wait less than earlier ones. */
  lemma BackoffMonotone(p: RetryPolicy, i: nat, j: nat)
    requires 1 <= i <= j
    ensures Backoff(p, i) <= Backoff(p, j)
  {
    Pow2Monotone(i - 1, j - 1);
    MulMonotone(p.firstBackoffMs, Pow2(i - 1), Pow2(j - 1));
  }

  lemma MulMonotone(c: nat, a: nat, b: nat)
    requires a <= b
    ensures c * a <= c * b
  {
  }

  /** The first retry waits the configured first backoff whenever that is within the cap. */
  lemma FirstBackoff(p: RetryPolicy)
    requires p.firstBackoffMs <= p.maxBackoffMs
    ensures Backoff(p, 1) == p.firstBackoffMs
  {
  }

  /** Sum of the backoffs of `n` consecutive retries starting at iteration `from`. */
  function BackoffTotal(p: RetryPolicy, from: nat, n: nat): nat
    requires from >= 1
    decreases n
  {
    if n == 0 then 0 else Backoff(p, from) + BackoffTotal(p, from + 1, n - 1)
  }

  /**
   * Whether the retry gives up instead of scheduling retry number `iteration` for a failure seen
   * at `nowMs`: too many retries, the budget already spent, or the next backoff would end past it.
   */
  predicate Exhausted(p: RetryPolicy, iteration: nat, nowMs: nat)
    requires iteration >= 1
  {
    iteration > p.maxRetries || nowMs > p.timeoutMs || nowMs + Backoff(p, iteration) > p.timeoutMs
  }

  /** One call of the deferred operation: what it produced and how long it took. */
  datatype Attempt<T> = Attempt(outcome: Outcome<T>, tookMs: nat)

  /** A retry that was scheduled: its number, its backoff and when the re-issued call starts. */
  datatype Scheduled = Scheduled(iteration: nat, delayMs: nat, resumeAtMs: nat)

  /** What one retried call did: the outcome its subscriber sees, the calls issued and the retries scheduled. */
  datatype Run<T> = Run(outcome: Outcome<T>, calls: nat, retries: seq<Scheduled>)

  /**
   * Plays the policy from call number `k` (0-based), issued at `startMs`. `script(j)` is what
   * the subscriber sees from call `j`: a fresh execution when the retried operation is deferred,
   * a replay of an earlier one when it is not.
   */
  function Drive<T>(p: RetryPolicy, script: nat -> Attempt<T>, k: nat, startMs: nat): Run<T>
    decreases p.maxRetries - k
  {
    var a := script(k);
    var now := startMs + a.tookMs;
    match a.outcome
    case Done(v) => Run(Done(v), k + 1, [])
    case Failed(f) =>
      if !Admits(p.filter, f) then Run(Failed(Rejection(p.filter, f)), k + 1, [])
      else if Exhausted(p, k + 1, now) then Run(Failed(RetryExhausted(f)), k + 1, [])
      else
        var d := Backoff(p, k + 1);
        var rest := Drive(p, script, k + 1, now + d);
        Run(rest.outcome, rest.calls, [Scheduled(k + 1, d, now + d)] + rest.retries)
  }

  /** A retried operation, subscribed at time 0. */
  function Execute<T>(p: RetryPolicy, script: nat -> Attempt<T>): Run<T>
  {
    Drive(p, script, 0, 0)
  }

  /** How the last call's outcome becomes the subscriber's outcome. */
  ghost predicate Concludes<T>(p: RetryPolicy, last: Outcome<T>, result: Outcome<T>)
  {
    match last
    case Done(v) => result == Done(v)
    case Failed(f) =>
      if Admits(p.filter, f) then result == Failed(RetryExhausted(f)) else result == Failed(Rejection(p.filter, f))
  }

  lemma {:induction false} DriveCalls<T>(p: RetryPolicy, script: nat -> Attempt<T>, k: nat, startMs: nat)
    ensures var r := Drive(p, script, k, startMs);
      && r.calls == k + 1 + |r.retries|
      && (|r.retries| == 0 || k + |r.retries| <= p.maxRetries)
    decreases p.maxRetries - k
  {
    var a := script(k);
    var now := startMs + a.tookMs;
    if a.outcome.Failed? && Admits(p.filter, a.outcome.failure) && !Exhausted(p, k + 1, now) {
      DriveCalls(p, script, k + 1, now + Backoff(p, k + 1));
    }
  }

  /** Whether call `k`, issued at `startMs`, fails in a way that schedules another call. */
  predicate RetriesAfter<T>(p: RetryPolicy, script: nat -> Attempt<T>, k: nat, startMs: nat)
  {
    var a := script(k);
    a.outcome.Failed? && Admits(p.filter, a.outcome.failure)
    && !Exhausted(p, k + 1, startMs + a.tookMs)
  }

  /** Unfolds `Drive` at a call that schedules a retry. */
  lemma DriveRetrying<T>(p: RetryPolicy, script: nat -> Attempt<T>, k: nat, startMs: nat)
    requires RetriesAfter(p, script, k, startMs)
    ensures var resume := startMs + script(k).tookMs + Backoff(p, k + 1);
      var rest := Drive(p, script, k + 1, resume);
      Drive(p, script, k, startMs)
        == Run(rest.outcome, rest.calls, [Scheduled(k + 1, Backoff(p, k + 1), resume)] + rest.retries)
  {
  }

  /** Unfolds `Drive` at a call after which nothing is retried. */
  lemma DriveStopping<T>(p: RetryPolicy, script: nat -> Attempt<T>, k: nat, startMs: nat)
    requires !RetriesAfter(p, script, k, startMs)
    ensures Drive(p, script, k, startMs).retries == []
    ensures Drive(p, script, k, startMs).calls == k + 1
  {
  }

  /** The schedule shape `DriveSchedule` states, for the retries scheduled from call `k` on, issued at `startMs`. */
  ghost predicate ScheduleFrom(p: RetryPolicy, k: nat, startMs: nat, retries: seq<Scheduled>)
  {
    forall i :: 0 <= i < |retries| ==>
      && retries[i].iteration == k + 1 + i
      && retries[i].delayMs == Backoff(p, k + 1 + i)
      && startMs + BackoffTotal(p, k + 1, i + 1) <= retries[i].resumeAtMs <= p.timeoutMs
  }

  /** Putting the retry scheduled after call `k` in front of the schedule of the calls after it. */
  lemma ScheduleCons(p: RetryPolicy, k: nat, startMs: nat, now: nat, tail: seq<Scheduled>)
    requires startMs <= now && now + Backoff(p, k + 1) <= p.timeoutMs
    requires ScheduleFrom(p, k + 1, now + Backoff(p, k + 1), tail)
    ensures ScheduleFrom(p, k, startMs, [Scheduled(k + 1, Backoff(p, k + 1), now + Backoff(p, k + 1))] + tail)
  {
    var d := Backoff(p, k + 1);
    var all := [Scheduled(k + 1, d, now + d)] + tail;
    forall i | 0 <= i < |all|
      ensures all[i].iteration == k + 1 + i
      ensures all[i].delayMs == Backoff(p, k + 1 + i)
      ensures startMs + BackoffTotal(p, k + 1, i + 1) <= all[i].resumeAtMs <= p.timeoutMs
    {
      if i == 0 {
        assert BackoffTotal(p, k + 1, 1) == d;
      } else {
        assert all[i] == tail[i - 1];
        assert BackoffTotal(p, k + 1, i + 1) == d + BackoffTotal(p, k + 2, i);
      }
    }
  }

  lemma {:induction false} DriveSchedule<T>(p: RetryPolicy, script: nat -> Attempt<T>, k: nat, startMs: nat)
    ensures ScheduleFrom(p, k, startMs, Drive(p, script, k, startMs).retries)
    decreases p.maxRetries - k
  {
    if RetriesAfter(p, script, k, startMs) {
      var now := startMs + script(k).tookMs;
      var d := Backoff(p, k + 1);
      DriveRetrying(p, script, k, startMs);
      DriveSchedule(p, script, k + 1, now + d);
      ScheduleCons(p, k, startMs, now, Drive(p, script, k + 1, now + d).retries);
    } else {
      DriveStopping(p, script, k, startMs);
    }
  }

  lemma {:induction false} DriveConcludes<T>(p: RetryPolicy, script: nat -> Attempt<T>, k: nat, startMs: nat)
    ensures var r := Drive(p, script, k, startMs);
      && k < r.calls
      && Concludes(p, script(r.calls - 1).outcome, r.outcome)
      && forall j :: k <= j < r.calls - 1 ==>
           script(j).outcome.Failed? && Admits(p.filter, script(j).outcome.failure)
    decreases p.maxRetries - k
  {
    var a := script(k);
    var now := startMs + a.tookMs;
    if a.outcome.Failed? && Admits(p.filter, a.outcome.failure) && !Exhausted(p, k + 1, now) {
      DriveConcludes(p, script, k + 1, now + Backoff(p, k + 1));
    }
  }

  /**
   * The bounds of a retried operation: at most `maxRetries` retries, one fresh call per retry,
   * the n-th retry waits the n-th backoff (so waits never shrink and never pass the cap), and
   * no retried call starts after the time budget.
   */
  lemma RetryBounds<T>(p: RetryPolicy, script: nat -> Attempt<T>)
    ensures var r := Execute(p, script);
      && |r.retries| <= p.maxRetries
      && r.calls == |r.retries| + 1
      && (forall i :: 0 <= i < |r.retries| ==>
            r.retries[i].delayMs == Backoff(p, i + 1) <= p.maxBackoffMs
            && BackoffTotal(p, 1, i + 1) <= r.retries[i].resumeAtMs <= p.timeoutMs)
      && (forall i, j :: 0 <= i <= j < |r.retries| ==> r.retries[i].delayMs <= r.retries[j].delayMs)
  {
    DriveCalls(p, script, 0, 0);
    DriveSchedule(p, script, 0, 0);
    var r := Execute(p, script);
    forall i, j | 0 <= i <= j < |r.retries|
      ensures r.retries[i].delayMs <= r.retries[j].delayMs
    {
      BackoffMonotone(p, i + 1, j + 1);
    }
  }

  /**
   * The outcome of a retried operation: a success is passed on; a failure the filter rejects
   * is passed on as it is; a failure the filter accepts but that cannot be retried any more is
   * wrapped in `RetryExhaustedException`. Every call before the last failed with an accepted failure.
   */
  lemma RetryConcludes<T>(p: RetryPolicy, script: nat -> Attempt<T>)
    ensures var r := Execute(p, script);
      && r.calls >= 1
      && Concludes(p, script(r.calls - 1).outcome, r.outcome)
      && forall j :: 0 <= j < r.calls - 1 ==>
           script(j).outcome.Failed? && Admits(p.filter, script(j).outcome.failure)
  {
    DriveConcludes(p, script, 0, 0);
  }

  /**
   * When every call fails with a failure the filter accepts, the operation ends in
   * `RetryExhaustedException` around the last call's failure, after at most `maxRetries + 1` calls.
   */
  lemma ExhaustedWhenAllAdmitted<T>(p: RetryPolicy, script: nat -> Attempt<T>)
    requires forall j :: script(j).outcome.Failed? && Admits(p.filter, script(j).outcome.failure)
    ensures var r := Execute(p, script);
      && 1 <= r.calls <= p.maxRetries + 1
      && r.outcome == Failed(RetryExhausted(script(r.calls - 1).outcome.failure))
  {
    RetryConcludes(p, script);
    RetryBounds(p, script);
  }

  /**
   * A failure the filter rejects ends the operation at once: one call, no retry, the failure
   * passed on unchanged, or the filter's own exception when its test threw.
   */
  lemma RejectedFailureNotRetried<T>(p: RetryPolicy, script: nat -> Attempt<T>)
    requires script(0).outcome.Failed? && !Admits(p.filter, script(0).outcome.failure)
    ensures Execute(p, script) == Run(Failed(Rejection(p.filter, script(0).outcome.failure)), 1, [])
    ensures !TestThrows(p.filter, script(0).outcome.failure) ==> Execute(p, script) == Run(script(0).outcome, 1, [])
  {
  }

  /**
   * Under `retryable`, a `WebClientResponseException` whose status has no `HttpStatus` constant
   * ends the operation after that one call with the `IllegalArgumentException` its test throws,
   * neither retried nor passed on.
   */
  lemma UnknownStatusEndsRetry<T>(p: RetryPolicy, script: nat -> Attempt<T>, code: int, text: string)
    requires p.filter == NotClientResponseError
    requires script(0).outcome == Failed(ResponseError(code, text)) && !HttpStatus.IsKnown(code)
    ensures Execute(p, script) == Run(Failed(NoMatchingConstant(code)), 1, [])
    ensures Message(Execute(p, script).outcome.failure) == Some("No matching constant for [" + Strings.IntToString(code) + "]")
  {
  }

  /**
   * A failure the filter accepts is retried: when a retry is allowed and its backoff fits in the
   * budget, the first retry waits the first backoff and issues a second call.
   */
  lemma AdmittedFailureRetried<T>(p: RetryPolicy, script: nat -> Attempt<T>)
    requires script(0).outcome.Failed? && Admits(p.filter, script(0).outcome.failure)
    requires p.maxRetries >= 1 && script(0).tookMs + Backoff(p, 1) <= p.timeoutMs
    ensures var r := Execute(p, script);
      && r.calls >= 2 && |r.retries| >= 1
      && r.retries[0] == Scheduled(1, Backoff(p, 1), script(0).tookMs + Backoff(p, 1))
  {
    var resume := script(0).tookMs + Backoff(p, 1);
    DriveRetrying(p, script, 0, 0);
    DriveCalls(p, script, 1, resume);
  }

  /**
   * The filter of `Retryer` and of the per-name retries: everything is retried except a
   * `WebClientResponseException` with a 4xx status, whatever its body, and one whose status has
   * no constant, on which the test throws; 5xx responses and failures that are not HTTP
   * responses are retried.
   */
  lemma RetryerFilter(f: Failure)
    ensures TestThrows(RetryerPolicy.filter, f) <==> f.ResponseError? && !HttpStatus.IsKnown(f.status)
    ensures Admits(RetryerPolicy.filter, f)
      <==> !(f.ResponseError? && (!HttpStatus.IsKnown(f.status) || HttpStatus.Is4xx(f.status)))
    ensures f.ResponseError? && HttpStatus.IsKnown(f.status) && 500 <= f.status ==> Admits(RetryerPolicy.filter, f)
    ensures !f.ResponseError? ==> Admits(RetryerPolicy.filter, f)
  {
  }

  /** The kinds of `Publisher` the operators dispatch on. */
  datatype PublisherKind = MonoPublisher | FluxPublisher | OtherPublisher(simpleName: string)

  function Unsupported(kind: PublisherKind): Failure
    requires kind.OtherPublisher?
  {
    IllegalState("Publisher of type <" + kind.simpleName + "> are not supported by this operator")
  }

  /** What applying a retry operator to a publisher does. */
  datatype Application =
      /** The publisher is re-subscribed under this policy. */
    | Retried(policy: RetryPolicy)
      /** Applying the operator throws. */
    | Throws(failure: Failure)
      /** The operator returns a publisher that only signals this error. */
    | Errors(failure: Failure)

  /** `Retryer.retry(name, tracer)`: Mono and Flux get the one static policy; anything else throws. */
  function RetryerApply(kind: PublisherKind): (a: Application)
    ensures kind.MonoPublisher? || kind.FluxPublisher? <==> a == Retried(RetryerPolicy)
    ensures kind.OtherPublisher? ==> a == Throws(Unsupported(kind))
  {
    match kind
    case MonoPublisher => Retried(RetryerPolicy)
    case FluxPublisher => Retried(RetryerPolicy)
    case OtherPublisher(_) => Throws(Unsupported(kind))
  }

  /**
   * Under `Retryer`'s policy an operation is called at most four times, and a third retry is
   * only reached when the first three calls took at most 1 s together: its backoffs sum to 7 s
   * of the 8 s budget.
   */
  lemma RetryerAtMostFourCalls<T>(script: nat -> Attempt<T>)
    ensures Execute(RetryerPolicy, script).calls <= 4
    ensures var r := Execute(RetryerPolicy, script);
      |r.retries| == 3 ==> r.retries[2].resumeAtMs >= 7000
  {
    RetryBounds(RetryerPolicy, script);
    var r := Execute(RetryerPolicy, script);
    if |r.retries| == 3 {
      assert BackoffTotal(RetryerPolicy, 1, 3) == 7000 by {
        assert Backoff(RetryerPolicy, 1) == 1000;
        assert Backoff(RetryerPolicy, 2) == 2000;
        assert Backoff(RetryerPolicy, 3) == 4000;
      }
    }
  }
}
