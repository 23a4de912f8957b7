/**
 * `DefaultResilience`: a registry that keeps, per name, a circuit breaker, a rate limiter and a
 * retry, filled eagerly by `registerAll` or lazily by the accessors, and the `all` decoration,
 * which retries first and lets the breaker judge the retried result.
 */
module Resilience {
  import opened Wrappers
  import opened Failures
  import opened Retry

  /** The per-name retry: 4xx responses are not retried, 6 s budget, at most 3 retries, 1 s doubling up to 10 s. */
  const PerNamePolicy := RetryPolicy(NotClientResponseError, 6000, 3, 1000, BackoffCapMs)

  /** The parameters `register` gives a breaker; which failures it records is a filter. */
  datatype BreakerConfig = BreakerConfig(waitInOpenStateMs: nat, failureRateThreshold: nat, recordFailure: ErrorFilter)

  datatype LimiterConfig = LimiterConfig(timeoutMs: nat, limitRefreshPeriodMs: nat, limitForPeriod: nat)

  /** A breaker and a limiter are obtained from their registries by name. */
  datatype Breaker = Breaker(name: string, config: BreakerConfig)

  datatype Limiter = Limiter(name: string, config: LimiterConfig)

  /** The triple `register` stores: breaker operator, limiter operator, retry. */
  datatype Handles = Handles(breaker: Breaker, limiter: Limiter, retry: RetryPolicy)

  /** What `register(name)` builds for `name`. */
  function Standard(name: string): (h: Handles)
    ensures h.breaker.name == name && h.limiter.name == name
    ensures h.breaker.config.recordFailure == h.retry.filter == NotClientResponseError
  {
    Handles(
      Breaker(name, BreakerConfig(10000, 20, NotClientResponseError)),
      Limiter(name, LimiterConfig(3000, 1000, 100)),
      PerNamePolicy)
  }

  /** The default breaker of `Resilience4JConfig`'s factory, which `Decorator` wraps around `Retryer`. */
  const FactoryBreaker := BreakerConfig(10000, 40, NotClientResponseError)

  /** A decoration, listed from the innermost operator outwards. */
  datatype Stage = RetryStage(policy: RetryPolicy) | BreakerStage(breaker: Breaker)

  /** What `all(name)` returns for a publisher: the stages it is wrapped in, or an error publisher. */
  datatype Decoration = Wrapped(stages: seq<Stage>) | ErrorPublisher(failure: Failure)

  class DefaultResilience {
    /** The `registry` map: name to its triple. */
    var registry: map<string, Handles>

    /** Every registered name holds the triple built for it. */
    ghost predicate Valid()
      reads this
    {
      forall n :: n in registry ==> registry[n] == Standard(n)
    }

    constructor ()
      ensures Valid() && registry == map[]
    {
      registry := map[];
    }

    /** `register(name)`: stores a fresh triple under `name`, replacing any earlier one. */
    method Register(name: string)
      requires Valid()
      modifies this
      ensures Valid()
      ensures registry == old(registry)[name := Standard(name)]
    {
      registry := registry[name := Standard(name)];
    }

    /** `registerAll(names...)`: registers every name in turn. */
    method RegisterAll(names: seq<string>)
      requires Valid()
      modifies this
      ensures Valid()
      ensures registry.Keys == old(registry).Keys + set n | n in names
    {
      for i := 0 to |names|
        invariant Valid()
        invariant registry.Keys == old(registry).Keys + set n | n in names[..i]
      {
        Register(names[i]);
        assert names[..i + 1] == names[..i] + [names[i]];
      }
      assert names[..|names|] == names;
    }

    /** The registration every accessor performs first: only when the name is missing. */
    method Ensure(name: string)
      requires Valid()
      modifies this
      ensures Valid()
      ensures registry == old(registry)[name := Standard(name)]
    {
      if name !in registry {
        Register(name);
      }
    }

    /**
     * `retry(name)` applied to a publisher: registers the name if needed, then re-subscribes a
     * Mono or Flux under the per-name policy; any other publisher gets an error publisher.
     */
    method RetryFor(name: string, kind: PublisherKind) returns (a: Application)
      requires Valid()
      modifies this
      ensures Valid()
      ensures registry == old(registry)[name := Standard(name)]
      ensures kind.OtherPublisher? ==> a == Errors(Unsupported(kind))
      ensures !kind.OtherPublisher? ==> a == Retried(PerNamePolicy)
    {
      Ensure(name);
      if kind.OtherPublisher? {
        a := Errors(Unsupported(kind));
      } else {
        a := Retried(registry[name].retry);
      }
    }

    /** `circuitBreaker(name)`: the breaker registered under `name`, registering it first if needed. */
    method CircuitBreaker(name: string) returns (b: Breaker)
      requires Valid()
      modifies this
      ensures Valid()
      ensures registry == old(registry)[name := Standard(name)]
      ensures b == Standard(name).breaker
    {
      Ensure(name);
      b := registry[name].breaker;
    }

    /** `rateLimiter(name)`: the limiter registered under `name`, registering it first if needed. */
    method RateLimiter(name: string) returns (l: Limiter)
      requires Valid()
      modifies this
      ensures Valid()
      ensures registry == old(registry)[name := Standard(name)]
      ensures l == Standard(name).limiter
    {
      Ensure(name);
      l := registry[name].limiter;
    }

    /**
     * `all(name)` applied to a publisher: a Mono or Flux is wrapped in the retry and then in the
     * breaker (both registered if needed); any other publisher becomes an error publisher and
     * nothing is registered.
     */
    method All(name: string, kind: PublisherKind) returns (d: Decoration)
      requires Valid()
      modifies this
      ensures Valid()
      ensures kind.OtherPublisher? ==> d == ErrorPublisher(Unsupported(kind)) && registry == old(registry)
      ensures !kind.OtherPublisher? ==>
        && registry == old(registry)[name := Standard(name)]
        && d == Wrapped([RetryStage(PerNamePolicy), BreakerStage(Standard(name).breaker)])
    {
      if kind.OtherPublisher? {
        return ErrorPublisher(Unsupported(kind));
      }
      var a := RetryFor(name, kind);
      var b := CircuitBreaker(name);
      d := Wrapped([RetryStage(a.policy), BreakerStage(b)]);
    }
  }

  /** What a decorated call did: the subscriber's outcome, the calls issued, and whether the breaker recorded a failure. */
  datatype Judged<T> = Judged(outcome: Outcome<T>, calls: nat, recordedFailure: bool)

  /**
   * A call decorated by `all`: the retry runs the calls, and the breaker sees only the retried
   * outcome, recording it as a failure when its filter accepts it. The breaker's state (open,
   * half-open, rejection) belongs to the library and is not modelled.
   */
  function RetryThenBreaker<T>(policy: RetryPolicy, breaker: Breaker, script: nat -> Attempt<T>): Judged<T>
  {
    var r := Execute(policy, script);
    Judged(r.outcome, r.calls, r.outcome.Failed? && Admits(breaker.config.recordFailure, r.outcome.failure))
  }

  /**
   * When the breaker records exactly what the retry retries (as in `all`, where both use
   * `retryable`, and in `Decorator`, where `Resilience4JConfig`'s breakers record
   * `Retryer.retryable`), the breaker records a failure exactly when the retry gave up on a
   * retryable failure or the retry's own test threw; a failure the retry passes on unretried
   * reaches the subscriber unrecorded, as the last call returned it.
   */
  lemma BreakerRecordsOnlyExhaustion<T>(policy: RetryPolicy, breaker: Breaker, script: nat -> Attempt<T>)
    requires breaker.config.recordFailure == policy.filter
    ensures var j := RetryThenBreaker(policy, breaker, script);
      && j.calls >= 1
      && (j.recordedFailure <==>
            j.outcome.Failed? &&
            (|| j.outcome.failure.RetryExhausted?
             || (script(j.calls - 1).outcome.Failed? && TestThrows(policy.filter, script(j.calls - 1).outcome.failure))))
      && (j.outcome.Failed? && !j.recordedFailure ==>
            j.outcome == script(j.calls - 1).outcome && !Admits(policy.filter, j.outcome.failure))
  {
    RetryConcludes(policy, script);
  }

  /**
   * The per-name retry never reaches its third retry: the first three backoffs add up to 7 s,
   * past the 6 s budget, so a call is issued at most three times.
   */
  lemma PerNameAtMostTwoRetries<T>(script: nat -> Attempt<T>)
    ensures |Execute(PerNamePolicy, script).retries| <= 2
    ensures Execute(PerNamePolicy, script).calls <= 3
  {
    assert BackoffTotal(PerNamePolicy, 1, 3) == 7000 by {
      assert Backoff(PerNamePolicy, 1) == 1000;
      assert Backoff(PerNamePolicy, 2) == 2000;
      assert Backoff(PerNamePolicy, 3) == 4000;
    }
    RetryBounds(PerNamePolicy, script);
  }
}
