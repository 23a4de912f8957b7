/**
 * `UserAgentMetricsFilter`: a web filter that counts requests per user agent, skipping the
 * actuator endpoints and static assets, and always passes the exchange on.
 */
module UserAgentMetricsFilter {
  import opened Wrappers
  import opened Strings
  import opened UserAgentMetrics

  /** `isIgnored(path)`: actuator endpoints and `.png`, `.js` and `.css` files. */
  predicate IsIgnored(path: string)
  {
    StartsWith(path, "/actuator/") || EndsWith(path, ".png") || EndsWith(path, ".js") || EndsWith(path, ".css")
  }

  /**
   * Everything under `/actuator/` is ignored, but `/actuator` itself is counted; a page path
   * such as `/entries/1` is counted.
   */
  lemma ActuatorBoundary(rest: string)
    ensures IsIgnored("/actuator/" + rest)
    ensures !IsIgnored("/actuator")
    ensures !IsIgnored("/entries/1")
  {
    assert ("/actuator/" + rest)[..|"/actuator/"|] == "/actuator/";
    var page := "/entries/1";
    assert page[|page| - 1] == '1';
  }

  /** Any path naming an image, script or stylesheet is ignored. */
  lemma StaticAssetsIgnored(base: string)
    ensures IsIgnored(base + ".png") && IsIgnored(base + ".js") && IsIgnored(base + ".css")
  {
    assert (base + ".png")[|base|..] == ".png";
    assert (base + ".js")[|base|..] == ".js";
    assert (base + ".css")[|base|..] == ".css";
  }

  class UserAgentMetricsFilter {
    const meterRegistry: MeterRegistry

    constructor (registry: MeterRegistry)
      ensures meterRegistry == registry
    {
      meterRegistry := registry;
    }

    /**
     * `filter(exchange, chain)`: unless the path is ignored, the `useragent` counter tagged
     * with the parsed user agent goes up by one; the chain is invoked in every case.
     */
    method Filter(path: string, ua: UserAgent) returns (chainInvoked: bool)
      modifies meterRegistry
      ensures chainInvoked
      ensures IsIgnored(path) ==> meterRegistry.counters == old(meterRegistry.counters)
      ensures !IsIgnored(path) ==>
        meterRegistry.counters == old(meterRegistry.counters)[UserAgentCounter(ua) := Count(old(meterRegistry.counters), UserAgentCounter(ua)) + 1]
    {
      if !IsIgnored(path) {
        var tags: seq<MeterTag> := [];
        if NonEmpty(ua.name) {
          tags := tags + [MeterTag("name", ua.name.value)];
        }
        assert tags == if NonEmpty(ua.name) then [MeterTag("name", ua.name.value)] else [];
        if NonEmpty(ua.category) {
          tags := tags + [MeterTag("category", ua.category.value)];
        }
        assert tags == UserAgentTags(ua);
        meterRegistry.Increment(CounterId("useragent", tags));
      }
      chainInvoked := true;
    }
  }
}
