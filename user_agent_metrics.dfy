/**
 * What the user-agent metrics share: the tags built from a parsed `User-Agent` header and the
 * `useragent` counters of the meter registry.
 */
module UserAgentMetrics {
  import opened Wrappers

  /** A Micrometer `Tag`: key and value. */
  datatype MeterTag = MeterTag(key: string, value: string)

  /** The two fields of the user-agent parser's result that are read; `None` stands for a missing entry. */
  datatype UserAgent = UserAgent(name: Option<string>, category: Option<string>)

  /** `!StringUtils.isEmpty(s)`: present and not the empty string. */
  predicate NonEmpty(s: Option<string>)
  {
    s.Some? && |s.value| > 0
  }

  /**
   * The tag list the filter and the interceptor build: `name` when the name is non-empty,
   * then `category` when the category is non-empty.
   */
  function UserAgentTags(ua: UserAgent): (tags: seq<MeterTag>)
    ensures |tags| <= 2
    ensures |tags| == (if NonEmpty(ua.name) then 1 else 0) + (if NonEmpty(ua.category) then 1 else 0)
    ensures NonEmpty(ua.name) <==> MeterTag("name", ua.name.GetOr("")) in tags
    ensures NonEmpty(ua.category) <==> MeterTag("category", ua.category.GetOr("")) in tags
    ensures forall i :: 0 <= i < |tags| ==> tags[i].key == "name" || tags[i].key == "category"
    ensures |tags| == 2 ==> tags[0].key == "name" && tags[1].key == "category"
  {
    (if NonEmpty(ua.name) then [MeterTag("name", ua.name.value)] else [])
      + (if NonEmpty(ua.category) then [MeterTag("category", ua.category.value)] else [])
  }

  /** A counter is identified by its meter name and its tags. */
  datatype CounterId = CounterId(name: string, tags: seq<MeterTag>)

  /** `counter("useragent", tags)` for a parsed user agent. */
  function UserAgentCounter(ua: UserAgent): CounterId
  {
    CounterId("useragent", UserAgentTags(ua))
  }

  /** A counter's count; a counter never incremented reads zero. */
  function Count(counters: map<CounterId, nat>, id: CounterId): nat
  {
    if id in counters then counters[id] else 0
  }

  /** Incrementing one counter adds exactly one to it and leaves every other count as it was. */
  lemma IncrementOnce(counters: map<CounterId, nat>, id: CounterId, other: CounterId)
    ensures Count(counters[id := Count(counters, id) + 1], other)
      == Count(counters, other) + (if other == id then 1 else 0)
  {
  }

  /** The meter registry, reduced to the counts of its counters. */
  class MeterRegistry {
    var counters: map<CounterId, nat>

    constructor ()
      ensures counters == map[]
    {
      counters := map[];
    }

    /** `counter(id).increment()`: registers the counter on first use and adds one. */
    method Increment(id: CounterId)
      modifies this
      ensures counters == old(counters)[id := Count(old(counters), id) + 1]
    {
      counters := counters[id := Count(counters, id) + 1];
    }
  }
}
