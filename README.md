# blog-ui-v4 resilient blog client, modelled in Dafny

This project models the core of the `blog-ui-v4` blog front end. That core is the client side
that fetches entries, categories and tags from the blog API and turns failures into error pages.
It covers the following parts:

- `RxBlogHttpClient`: the HTTP calls; the bounded, expiring entry cache behind `findById`, which
  revalidates a cached entry with a conditional HEAD (`If-Modified-Since`, section 3.3 of
  RFC 7232); and the status handling of its GETs. The GETs with a 4xx handler map a 4xx to a
  `HystrixBadRequestException` around a `ResponseStatusException` and decode every other body, a
  5xx included. The GET of `streamAll` has no handler and fails every 4xx and 5xx with a
  `WebClientResponseException`.
- `BlogHttpClient`: every call deferred and re-subscribed under a retry with a 6 s budget, a
  configured retry maximum and first backoff, a 10 s cap, and no retry for 4xx
  `ResponseStatusException`s. `findAll` puts its retry inside the deferred publisher, so its
  retries replay the one command execution.
- `Retryer` and `DefaultResilience`: the shared `retryable` predicate; the 8 s and 6 s
  exponential retries; the per-name registry of breaker, limiter and retry, filled eagerly or
  lazily; and the `all` decoration, in which the breaker judges the already retried result.
- `BlogRSocketClient`: the request routes; `convertException`, which reads a status and reason
  back out of an RSocket error message; and the list API built by collecting streams.
- `BlogClient`: the default `streamX` methods that flatten `findX`.
- `BlogUiController.ContentChecker`: the four staleness flags.
- `CategoriesRenderer` and `TagsRenderer`: the breadcrumb and tag HTML.
- `HystrixExceptionHandler` and `BlogExceptionHandler`: exception to status, reason phrase,
  message and class on the error page.
- `UserAgentMetricsFilter` and `UserAgentMetricsInterceptor`: the ignored paths, the user-agent
  tag list, and the `useragent` counter.

Transport replies, the clock and the user-agent parser's output are inputs. A retried call is
played against a script `nat -> Attempt` that gives, for each call, its outcome and duration. Time
is counted in milliseconds from the first subscription.

Modules:

- Shared: `Wrappers`, `Strings`, `HttpStatus` (the `HttpStatus` table of Spring 5.1, in which a
  code without a constant makes `valueOf` throw), `Failures` (the exceptions as values, with
  `getMessage`, `toString` and class name), `BlogModel`, `Reactive` (finished `Mono`/`Flux`
  values), `Retry` (the retry driver), `ErrorViews` and `UserAgentMetrics`.
- One module per source file: `RxBlogHttp`, `BlogHttp`, `Resilience`, `RSocketClient`,
  `BlogClient`, `ContentCheck`, `CategoriesRender`, `TagsRender`, `HystrixExceptionHandler`,
  `BlogExceptionHandler`, `UserAgentMetricsFilter` and `UserAgentMetricsInterceptor`.

The retry semantics are those of `reactor.retry` as configured by the code:

- The iteration number is the failed call's index plus one.
- The filter is consulted first. A rejected failure passes through unchanged. `retryable` reads
  a `WebClientResponseException`'s status through `HttpStatus.valueOf`. For a status without a
  constant, its test throws, and that `IllegalArgumentException` ends the retry in place of the
  failure.
- Otherwise the retry gives up when the iteration exceeds the maximum, when the budget is already
  spent, or when the next backoff would end past the budget. The last failure is then wrapped in
  `RetryExhaustedException`.
- The n-th backoff is `min(first * 2^(n-1), 10 s)`, with no jitter.

The code is followed wherever the system's design description says otherwise:

- There is no fallback content. Failures reach the exception handlers.
- A 304 revalidation answers from the cache without rewriting it. The cache is written only
  after a full GET.
- The budgets are 8 s (`Retryer`) and 6 s (`BlogHttpClient`, `DefaultResilience`).
- The per-name breakers record failures at a 20 % threshold, and the factory default is 40 %.
- Eviction is Caffeine's own choice, not least-recently-used.
- The retry runs inside the breaker.

## Model

| member | source | states |
|---|---|---|
| RxBlogHttp.Retrieve | src/main/java/am/ik/blog/http/RxBlogHttpClient.java:79-84 | the GET with a 4xx status handler, as in `findById` and every other command but `streamAll`. A 4xx becomes `HystrixBadRequestException(ResponseStatusException(code))`, which the command does not count. Every other known status, a 5xx included, yields whatever decoding the body gives: a value, or the decoder's failure. A code without a constant fails in `valueOf`. A transport failure passes through. |
| RxBlogHttp.RetrieveStream | src/main/java/am/ik/blog/http/RxBlogHttpClient.java:107-114 | the GET of `streamAll`, which has no status handler. Every known 4xx or 5xx fails with a counted `WebClientResponseException` that carries the status and whose message starts "ClientResponse has erroneous status code: ". Any other known status is decoded. A code without a constant fails in `valueOf`. A transport failure passes through. |
| RxBlogHttp.StreamErrorStatus | src/test/java/am/ik/blog/BlogUiApplicationTests.java:464 | without a status handler, an error status fails with the message "ClientResponse has erroneous status code: " followed by the code and its reason phrase |
| RxBlogHttp.HandlersDifferOnlyOnErrors | src/main/java/am/ik/blog/http/RxBlogHttpClient.java:97-112 | the two GETs agree below 400. On a 4xx, the handled GET gives a bad request and the stream GET a `WebClientResponseException`. On a 5xx, the handled GET decodes the body and the stream GET fails. |
| Failures.CommandBoundary | src/main/java/am/ik/blog/http/RxBlogHttpClient.java:64-68 | the assumed behaviour of the command library at a `@HystrixCommand` method (see "Left out"): a bad-request wrapper is unwrapped to its cause, and every other failure is passed on unchanged |
| RxBlogHttp.Resolve | src/main/java/am/ik/blog/http/RxBlogHttpClient.java:68-86 | a miss sends only the full GET. A live hit first sends a HEAD carrying the entry's `updated` date in RFC 1123 form. A 304 returns the cached entry with no write. Any other known status falls through to the GET. A broken HEAD, or a status without a constant, fails. The entry is stored exactly when a GET was sent and succeeded. |
| RxBlogHttp.RxBlogHttpClient.Lookup | src/main/java/am/ik/blog/http/RxBlogHttpClient.java:55-58 | an entry is found exactly when it is cached and less than 3 days old |
| RxBlogHttp.RxBlogHttpClient.Put | src/main/java/am/ik/blog/http/RxBlogHttpClient.java:85-86 | the entry is stored and no other value changes. At most one other entry is evicted, and only when the cache holds 100 entries. The cache never exceeds 100 entries. |
| RxBlogHttp.RxBlogHttpClient.FindById | src/main/java/am/ik/blog/http/RxBlogHttpClient.java:68-88 | the outcome and the requests sent are those of `Resolve` on the cache as it was. The cache is written exactly when `Resolve` stores, and the stored entry is then found for the next 3 days. Otherwise the cache is unchanged. |
| RxBlogHttp.RxBlogHttpClient.ClearCache | src/main/java/am/ik/blog/http/RxBlogHttpClient.java:191-193 | the cache is empty and no lookup finds anything |
| RxBlogHttp.RxBlogHttpClient.constructor | src/main/java/am/ik/blog/http/RxBlogHttpClient.java:52-62 | the cache starts empty |
| RxBlogHttp.CategoriesPath | src/main/java/am/ik/blog/http/RxBlogHttpClient.java:134-137 | the category segment of the path is the names joined by commas |
| BlogHttp.StatusFilter | src/main/java/am/ik/blog/http/BlogHttpClient.java:37-45 | the only failure not retried is a `ResponseStatusException` with a 4xx status |
| BlogHttp.Unwrapped | src/main/java/am/ik/blog/http/BlogHttpClient.java:56-57 | each deferred call's failure is what leaves the command boundary, and a success is unchanged |
| BlogHttp.ClientErrorNotRetried | src/main/java/am/ik/blog/http/BlogHttpClient.java:39-42 | a 4xx answered to a GET with the status handler ends the call after one execution with `ResponseStatusException(code)` |
| BlogHttp.RetriedOnceThenSuccess | src/main/java/am/ik/blog/http/BlogHttpClient.java:37-49 | a first execution failing with a failure the policy retries, followed by a success, gives the success after exactly one retry. That retry waits the configured first backoff. |
| BlogHttp.UndecodableServerErrorThenSuccess | src/main/java/am/ik/blog/http/BlogHttpClient.java:42-49 | a 5xx whose body the decoder rejects, followed by a success, gives the success after exactly one retry |
| BlogHttp.StreamClientErrorRetried | src/main/java/am/ik/blog/http/BlogHttpClient.java:68-73 | in `streamAll`, a 4xx arrives as a `WebClientResponseException`, which the filter does not exempt. It is retried, and a following success is returned after one retry. |
| BlogHttp.FindAllDecidedByFirstReply | src/main/java/am/ik/blog/http/BlogHttpClient.java:61-66 | the retry of `findAll` re-subscribes to the one command execution, so the first reply decides the outcome. A success passes after one call. A failure the filter rejects passes after one call. A failure it retries ends in `RetryExhaustedException` around that same failure, after at most `retryMax + 1` subscriptions. |
| BlogHttp.ExhaustedReportsLastFailure | src/main/java/am/ik/blog/http/BlogHttpClient.java:37-49 | when every execution fails retryably, the call ends in `RetryExhaustedException` around the last failure after at most `retryMax + 1` executions. Its message is that failure's `toString()`. |
| BlogHttp.CallBudget | src/main/java/am/ik/blog/http/BlogHttpClient.java:46-49 | for every call but `findAll`, there are at most `retryMax` retries, each a fresh execution. The n-th wait is at most `first * 2^(n-1)` and at most 10 s, waits never shrink, and no retried call starts after 6 s. |
| Retry.RetryerFilter | src/main/java/am/ik/blog/http/Retryer.java:24-31 | the test of `retryable` throws exactly for a `WebClientResponseException` whose status has no constant. Otherwise it is false exactly for a `WebClientResponseException` with a 4xx status, and true for known 5xx statuses and for non-HTTP failures. |
| Retry.UnknownStatusEndsRetry | src/main/java/am/ik/blog/http/Retryer.java:26 | under `retryable`, a `WebClientResponseException` whose status has no constant ends the operation after one call with "No matching constant for [code]", neither retried nor passed on |
| Retry.Backoff | src/main/java/am/ik/blog/http/Retryer.java:37-38 | the n-th delay is the first backoff doubled n - 1 times, or the cap when that is smaller. It never exceeds the cap. |
| Retry.BackoffMonotone | src/main/java/am/ik/blog/http/Retryer.java:37-38 | later retries never wait less |
| Retry.FirstBackoff | src/main/java/am/ik/blog/http/Retryer.java:37 | the first retry waits exactly the first backoff |
| Retry.RejectedFailureNotRetried | src/main/java/am/ik/blog/http/Retryer.java:34 | a failure the filter rejects ends the operation after one call. It is passed on unchanged, or replaced by the filter's exception when the test threw. |
| Retry.AdmittedFailureRetried | src/main/java/am/ik/blog/http/Retryer.java:34-38 | an accepted failure is retried after the first backoff when a retry is allowed and fits in the budget |
| Retry.RetryBounds | src/main/java/am/ik/blog/http/Retryer.java:33-38 | there are at most `maxRetries` retries and one fresh call per retry. The n-th retry waits the n-th backoff, which never passes the cap and never shrinks. No retried call starts after the budget. |
| Retry.RetryConcludes | src/main/java/am/ik/blog/http/Retryer.java:33-36 | a success passes through. A rejected failure passes through unchanged, or as the filter's exception when the test threw. An accepted failure that can no longer be retried is wrapped in `RetryExhaustedException`. Every earlier call failed with an accepted failure. |
| Retry.RetryerAtMostFourCalls | src/main/java/am/ik/blog/http/Retryer.java:35-38 | `Retryer`'s policy makes at most four calls. A third retry resumes no earlier than 7 s. |
| Retry.RetryerApply | src/main/java/am/ik/blog/http/Retryer.java:51-65 | a Mono or a Flux gets the one static policy, and any other publisher throws `IllegalStateException` naming its type |
| Resilience.Standard | src/main/java/am/ik/blog/http/DefaultResilience.java:70-97 | the triple registered for a name has a breaker and a limiter of that name. The breaker records exactly the failures the retry retries, namely `retryable`. |
| Resilience.DefaultResilience.constructor | src/main/java/am/ik/blog/http/DefaultResilience.java:36 | the registry starts empty |
| Resilience.DefaultResilience.Register | src/main/java/am/ik/blog/http/DefaultResilience.java:70-97 | `register` stores the standard triple under the name and touches no other name |
| Resilience.DefaultResilience.RegisterAll | src/main/java/am/ik/blog/http/DefaultResilience.java:53-56 | afterwards the registered names are exactly the earlier ones plus the given ones, each holding its standard triple |
| Resilience.DefaultResilience.Ensure | src/main/java/am/ik/blog/http/DefaultResilience.java:116-119 | lazy registration: afterwards the name holds its triple and no other name changes |
| Resilience.DefaultResilience.RetryFor | src/main/java/am/ik/blog/http/DefaultResilience.java:115-134 | `retry(name)` registers the name if needed. A Mono or Flux is retried under the per-name policy, and any other publisher gets an `IllegalStateException` error publisher. |
| Resilience.DefaultResilience.CircuitBreaker | src/main/java/am/ik/blog/http/DefaultResilience.java:136-143 | `circuitBreaker(name)` registers the name if needed and returns that name's breaker |
| Resilience.DefaultResilience.RateLimiter | src/main/java/am/ik/blog/http/DefaultResilience.java:145-152 | `rateLimiter(name)` registers the name if needed and returns that name's limiter |
| Resilience.DefaultResilience.All | src/main/java/am/ik/blog/http/DefaultResilience.java:99-113 | a Mono or Flux is wrapped in the retry and then the breaker, both registered. Any other publisher becomes an error publisher and nothing is registered. |
| Resilience.BreakerRecordsOnlyExhaustion | src/main/java/am/ik/blog/http/DefaultResilience.java:76 | when the breaker's filter is the retry's, it records a failure exactly when the retry gave up with `RetryExhaustedException` or the retry's test threw. An unrecorded failure is the last call's own failure, and the filter rejects it. |
| Resilience.PerNameAtMostTwoRetries | src/main/java/am/ik/blog/http/DefaultResilience.java:87-92 | the per-name retry makes at most 2 retries and 3 calls, because the first three backoffs sum to 7 s, more than the 6 s budget |
| RSocketClient.EntryRoute | src/main/java/am/ik/blog/rsocket/BlogRSocketClient.java:80 | the route is `/entries/` followed by the id in decimal |
| RSocketClient.CategoriesRoute | src/main/java/am/ik/blog/rsocket/BlogRSocketClient.java:132-134 | the route is `/categories/`, then the category names joined by commas, then `/entries` |
| RSocketClient.LeadingDigits | src/main/java/am/ik/blog/rsocket/BlogRSocketClient.java:217 | the result is the maximal run of digits at the start of the string |
| RSocketClient.ParseStatusLine | src/main/java/am/ik/blog/rsocket/BlogRSocketClient.java:216-219 | a match means the message is exactly `Response status <digits> with reason "<reason>"`, with a non-empty digit run and a non-empty reason free of line terminators |
| RSocketClient.ParseStatusLineComplete | src/main/java/am/ik/blog/rsocket/BlogRSocketClient.java:216-222 | every message of that form matches, with exactly its digits and reason as the two groups |
| RSocketClient.ConvertException | src/main/java/am/ik/blog/rsocket/BlogRSocketClient.java:213-226 | a matching application error becomes `ResponseStatusException(code, reason)` when the code has a constant. Digits past `Integer.MAX_VALUE` give a `NumberFormatException`, and a code without a constant gives an `IllegalArgumentException`. A non-matching message or any other RSocket error gives 500 with the original message. |
| RSocketClient.StatusMessageRoundTrip | src/main/java/am/ik/blog/rsocket/BlogRSocketClient.java:213-223 | the message of `ResponseStatusException(code, reason)` converts back to the same code and reason |
| Strings.DigitsRoundTrip | src/main/java/am/ik/blog/rsocket/BlogRSocketClient.java:220 | parsing the decimal rendering of a number gives the number back |
| HttpStatus.ValueOf | src/main/java/am/ik/blog/rsocket/BlogRSocketClient.java:221 | `valueOf` succeeds exactly for the codes with a constant, with that constant's reason phrase, and otherwise fails with `No matching constant for [code]` |
| Failures.NoMatchingConstant | src/main/java/am/ik/blog/rsocket/BlogRSocketClient.java:221 | the failure carries `valueOf`'s message for a code without a constant |
| RSocketClient.CollectPage | src/main/java/am/ik/blog/rsocket/BlogRSocketClient.java:230-250 | a page holds exactly the stream's entries in order, and a failed stream gives its error |
| RSocketClient.CollectStream | src/main/java/am/ik/blog/rsocket/BlogRSocketClient.java:252-260 | the list holds exactly the stream's elements in order, and a failed stream gives no list |
| Reactive.CollectList | src/main/java/am/ik/blog/rsocket/BlogRSocketClient.java:232 | `collectList` gives the items in order when the flux completes, and its error otherwise |
| Reactive.MapMono | src/main/java/am/ik/blog/rsocket/BlogRSocketClient.java:232 | `map` applies the function to a value and keeps emptiness and errors |
| Reactive.FlatMapIterable | src/main/java/am/ik/blog/BlogClient.java:21 | `flatMapMany(fromIterable)` emits the value's elements, an empty mono gives an empty flux, and an error gives an error with no items |
| BlogClient.StreamContent | src/main/java/am/ik/blog/BlogClient.java:20-43 | the stream emits the page's entries in order, or only the page's error |
| BlogClient.StreamList | src/main/java/am/ik/blog/BlogClient.java:47-55 | the stream emits the list's elements in order, or only the list's error |
| BlogClient.StreamContentCollects | src/main/java/am/ik/blog/BlogClient.java:20-43 | collecting a default stream gives back the `find` result's entries, and its error when it failed |
| BlogClient.StreamListCollects | src/main/java/am/ik/blog/BlogClient.java:47-55 | collecting `streamTags` or `streamCategories` gives back the `find` result's list |
| Reactive.CollectThenFlatten | src/main/java/am/ik/blog/rsocket/BlogRSocketClient.java:252-260 | flattening a collected stream gives the stream back, except that an error drops the items emitted before it |
| Reactive.FlattenThenCollect | src/main/java/am/ik/blog/BlogClient.java:47-55 | collecting a flattened list gives the list back, and an empty mono gives the empty list |
| BlogModel.CategoryNames | src/main/java/am/ik/blog/renderer/CategoriesRenderer.java:17 | the names of the categories, in order |
| ContentCheck.Classify | src/main/java/am/ik/blog/BlogUiController.java:110-138 | at most one flag holds, each flag implies its own age, and some flag holds exactly when some age does |
| ContentCheck.ClassifyBands | src/main/java/am/ik/blog/BlogUiController.java:110-138 | for ages a clock can give, the flags are the bands over 5 years, 3 to 5 years, 1 to 3 years, and half a year to 1 year |
| ContentCheck.ContentChecker.constructor | src/main/java/am/ik/blog/BlogUiController.java:102-108 | the dates come from the entry's `updated` author. Every later answer is the classification of the ages seen at construction. |
| CategoriesRender.Render | src/main/java/am/ik/blog/renderer/CategoriesRenderer.java:16-29 | no categories give the empty string. Otherwise the result is the index box and the links joined by `/` in braces, where the i-th link points to the first i + 1 names. |
| CategoriesRender.Anchors | src/main/java/am/ik/blog/renderer/CategoriesRenderer.java:23-27 | there is one link per category, and the i-th is built from the first i + 1 names |
| CategoriesRender.HrefPathsExtend | src/main/java/am/ik/blog/renderer/CategoriesRenderer.java:22-26 | each link's path is the previous one plus a comma and the next name |
| CategoriesRender.AnchorContent | src/main/java/am/ik/blog/renderer/CategoriesRenderer.java:25-26 | the i-th link's text is the i-th name |
| TagsRender.RenderTag | src/main/java/am/ik/blog/renderer/TagsRenderer.java:20-23 | a tag is the label, then `&nbsp;`, then a link whose `href` is exactly `/tags/<name>/entries` and whose text is exactly the name |
| TagsRender.RenderAll | src/main/java/am/ik/blog/renderer/TagsRenderer.java:14-17 | each tag is rendered, in order |
| TagsRender.RenderTags | src/main/java/am/ik/blog/renderer/TagsRenderer.java:14-18 | no tags give the empty string, and one tag gives just its rendering |
| TagsRender.RenderTagsAppend | src/main/java/am/ik/blog/renderer/TagsRenderer.java:14-18 | one more tag appends `&nbsp;` and its rendering and changes nothing else |
| HystrixExceptionHandler.StatusFor | src/main/java/am/ik/blog/exception/HystrixExceptionHandler.java:33-41 | the three rejection types give 429, a timeout gives 408, and every other type gives 500 |
| HystrixExceptionHandler.Hystrix | src/main/java/am/ik/blog/exception/HystrixExceptionHandler.java:27-60 | the page carries the chosen status, its reason phrase and the cause's message. The cause's class is shown exactly under the `default` or `debug` profile. |
| HystrixExceptionHandler.OnlyRejectionAndTimeoutAre4xx | src/main/java/am/ik/blog/exception/HystrixExceptionHandler.java:33-40 | the page has a 4xx status exactly for rejections and timeouts, with the phrases "Too Many Requests" and "Request Timeout" |
| ErrorViews.RenderError | src/main/java/am/ik/blog/exception/BlogExceptionHandler.java:36-51 | the page carries the status, its reason phrase and the message. The class is shown exactly under the `default` or `debug` profile. |
| ErrorViews.UnconfiguredShowsDetails | src/main/java/am/ik/blog/exception/BlogExceptionHandler.java:41 | with no active profile, Spring's `default` profile shows the details |
| ErrorViews.OtherProfileHidesDetails | src/main/java/am/ik/blog/exception/BlogExceptionHandler.java:41 | when only some other profile is active, the details are hidden |
| BlogExceptionHandler.Handle | src/main/java/am/ik/blog/exception/BlogExceptionHandler.java:27-51 | a `WebClientResponseException` keeps its own status, and anything else gets 500. `error` is the status's phrase. A missing message becomes the empty string. The class is shown only under `default` or `debug`. A status without a constant makes the handler itself throw. |
| BlogExceptionHandler.MessageNeverMissing | src/main/java/am/ik/blog/exception/BlogExceptionHandler.java:40 | the rendered message is always present, and it is empty when the exception has none |
| BlogExceptionHandler.ExhaustedCallRendersLastFailure | src/main/java/am/ik/blog/exception/BlogExceptionHandler.java:28-50 | a call whose executions all fail retryably is rendered as a 500 "Internal Server Error" page. Its message is the last failure's `toString()`, and its class, when shown, is `RetryExhaustedException`. |
| BlogExceptionHandler.UndecodableServerErrorPage | src/test/java/am/ik/blog/BlogUiApplicationTests.java:475-536 | an entry page whose every GET answers a 5xx with a body of content type `t` that no reader accepts renders 500 "Internal Server Error". Its message is "org.springframework.web.reactive.function.UnsupportedMediaTypeException: Content type 't' not supported". |
| BlogExceptionHandler.ErrorStatusStreamPage | src/test/java/am/ik/blog/BlogUiApplicationTests.java:413-473 | a `streamAll` page whose every GET answers an error status renders 500 "Internal Server Error". Its message is "org.springframework.web.reactive.function.client.WebClientResponseException: ClientResponse has erroneous status code: " followed by the code and its phrase. |
| Failures.Describe | src/test/java/am/ik/blog/BlogUiApplicationTests.java:464 | `toString()` is the class name, followed by `: ` and the message exactly when there is one |
| UserAgentMetrics.UserAgentTags | src/main/java/am/ik/blog/metrics/UserAgentMetricsFilter.java:38-44 | the list has at most two tags. `name` is present exactly when the name is non-empty, and `category` exactly when the category is non-empty. `name` comes first. |
| UserAgentMetricsFilter.ActuatorBoundary | src/main/java/am/ik/blog/metrics/UserAgentMetricsFilter.java:51 | everything under `/actuator/` is ignored, but `/actuator` itself and a page path are counted |
| UserAgentMetricsFilter.StaticAssetsIgnored | src/main/java/am/ik/blog/metrics/UserAgentMetricsFilter.java:51-52 | paths ending in `.png`, `.js` or `.css` are ignored |
| UserAgentMetricsFilter.UserAgentMetricsFilter.Filter | src/main/java/am/ik/blog/metrics/UserAgentMetricsFilter.java:29-48 | an ignored path leaves the counters unchanged. Any other path adds one to the `useragent` counter with the user agent's tags. The chain is always invoked. |
| UserAgentMetricsFilter.UserAgentMetricsFilter.constructor | src/main/java/am/ik/blog/metrics/UserAgentMetricsFilter.java:25-27 | the filter counts into the given registry |
| UserAgentMetrics.MeterRegistry.Increment | src/main/java/am/ik/blog/metrics/UserAgentMetricsFilter.java:45 | the named counter goes up by one, and it is registered at zero on first use |
| UserAgentMetrics.IncrementOnce | src/main/java/am/ik/blog/metrics/UserAgentMetricsInterceptor.java:43 | an increment adds exactly one to its counter and leaves every other count unchanged |
| UserAgentMetricsInterceptor.UserAgentMetricsInterceptor.PreHandle | src/main/java/am/ik/blog/metrics/UserAgentMetricsInterceptor.java:30-45 | every request, with no path filtering, adds one to the `useragent` counter with the user agent's tags, and the handler always proceeds |
| UserAgentMetricsInterceptor.UserAgentMetricsInterceptor.constructor | src/main/java/am/ik/blog/metrics/UserAgentMetricsInterceptor.java:25-27 | the interceptor counts into the given registry |

## Left out

- Breaker, limiter and time-limiter behaviour (states, rolling windows, half-open trials, permits) belongs to resilience4j and Hystrix. Only the parameters and the failure filter a breaker is given are modelled. The factory breaker of `Resilience4JConfig` appears only as the constant `Resilience.FactoryBreaker`.
- Hystrix command timeouts, semaphore limits and thread isolation are not modelled. Their effect on the error page is covered only through the failure type given to `HystrixExceptionHandler`.
- `BlogHttp.FindAllCall`: a replayed execution is taken to hand back its result at once (0 ms), since the command library caches what an executed command produced. The caching itself is not part of this model.
- The command boundary is assumed to unwrap `HystrixBadRequestException` to its cause and pass every other failure unchanged. The annotation-driven command library is not part of this model.
- Caffeine's choice of eviction victim (W-TinyLFU) and its asynchronous maintenance are not modelled. The victim is any cached key, and eviction happens at once.
- What `CacheMono`'s writer does on an error signal is not modelled. A failed fetch is taken to reach the subscriber as it is, with no write.
- Concurrency, reactive scheduling and real waiting are not modelled. The clock is an input, and a retry's wait is added to it.
- Transport, connection setup, the SMILE/JSON codecs, Jackson and the WebClient URI-template encoding are not modelled. Paths are built without percent-encoding. A stream is modelled all-or-nothing, as an `Outcome`. A `streamAll` stream that fails after emitting some entries is retried from the start, and the subscriber then sees those entries twice. The model does not capture that.
- The formatting of `updated.date` as an RFC 1123 date is JDK code. It is taken as given in `EventTime.rfc1123`.
- The age predicates of `EventTime` read the clock and are not part of this model. They are inputs (`AgeFlags`) to `ContentChecker`.
- The RSocket tag routes are not modelled, because the `toString` of the tag type they format is not part of this model. `RxBlogHttp.CategoriesPath` takes the categories' `toString` as strings for the same reason.
- The query strings of the HTTP and RSocket list calls (page, size, query, trace ids) are not modelled.
- Tracing spans, `doOnRetry` logging and all logging are not modelled.
- Stack-trace text on the error pages is not modelled. The `exception` attribute stands for the class name and the trace together.
- A `HystrixRuntimeException` without a cause is not modelled.
- User-agent parsing is an external library. Its `name` and `category` results are inputs.
- Micrometer sorts and deduplicates tags in a meter id. The model keeps the list as built, which identifies the same counter because the list is always built in the same order.
- Markdown rendering, controllers other than `ContentChecker`, security and actuator configuration, and the `410 Gone` routes are framework wiring and are not modelled.
- `BlogExceptionHandler.Handle` is what the advice computes when it is invoked. In the application tests, a 404 surfacing as a `ResponseStatusException` is rendered by the framework's own error handler, with status 404 and an empty message. That handler is not part of this model.
