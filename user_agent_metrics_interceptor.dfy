/**
 * `UserAgentMetricsInterceptor`: the servlet-side counterpart of the filter, which counts every
 * request per user agent before the handler runs.
 */
module UserAgentMetricsInterceptor {
  import opened Wrappers
  import opened UserAgentMetrics

  class UserAgentMetricsInterceptor {
    const meterRegistry: MeterRegistry

    constructor (registry: MeterRegistry)
      ensures meterRegistry == registry
    {
      meterRegistry := registry;
    }

    /**
     * `preHandle`: the `useragent` counter tagged with the parsed user agent goes up by one, with
     * no path filtering, and the handler always proceeds.
     */
    method PreHandle(ua: UserAgent) returns (proceed: bool)
      modifies meterRegistry
      ensures proceed
      ensures meterRegistry.counters
        == old(meterRegistry.counters)[UserAgentCounter(ua) := Count(old(meterRegistry.counters), UserAgentCounter(ua)) + 1]
    {
      var tags: seq<MeterTag> := [];
      if NonEmpty(ua.name) {
        tags := tags + [MeterTag("name", ua.name.value)];
      }
      assert tags == if NonEmpty(ua.name) then [MeterTag("name", ua.name.value)] else [];
      if NonEmpty(ua.category) {
        tags := tags + [MeterTag("category", ua.category.value)];
      }
      assert tags == UserAgentTags(ua);
      meterRegistry.Increment(CounterId("useragent", tags));
      proceed := true;
    }
  }
}
