/**
 * `RxBlogHttpClient`: the HTTP calls to the blog API, and the bounded, expiring entry cache
 * behind `findById`, which revalidates a cached entry with a conditional HEAD request
 * (`If-Modified-Since`, section 3.3 of RFC 7232) before falling back to a full GET.
 */
module RxBlogHttp {
  import opened Wrappers
  import opened Strings
  import opened Failures
  import opened BlogModel
  import HttpStatus

  /** `maximumSize(100)`. */
  const Capacity: nat := 100

  /** `expireAfterWrite(3, TimeUnit.DAYS)`, in milliseconds. */
  const TtlMs: nat := 3 * 24 * 60 * 60 * 1000

  /** A request the client sends to the API. */
  datatype Request =
    | Head(path: string, ifModifiedSince: string)
    | Get(path: string)

  /**
   * The API's answer to a HEAD exchange: any status, or a transport failure. Reading the status
   * of a response goes through `HttpStatus.valueOf`, so a code without a constant fails.
   */
  datatype HeadReply = HeadStatus(code: int) | HeadBroken(failure: Failure)

  /**
   * The API's answer to a GET: a response, with its status code and what decoding its body as
   * the expected type gives (the value, or the decoder's failure), or a failure before any
   * response arrived (connection, timeout).
   */
  datatype GetReply<T> = Answered(code: int, decoded: Outcome<T>) | GetBroken(failure: Failure)

  /** The decoder's failure for a body whose content type no reader accepts, such as `text/plain`. */
  function UnsupportedMediaType(contentType: string): Failure
  {
    Other("org.springframework.web.reactive.function.UnsupportedMediaTypeException",
          Some("Content type '" + contentType + "' not supported"))
  }

  /** The message `WebClientResponseException` carries for an erroneous status. */
  function ErroneousStatus(code: int): string
    requires HttpStatus.IsKnown(code)
  {
    "ClientResponse has erroneous status code: " + IntToString(code) + " " + HttpStatus.Reason(code).value
  }

  /**
   * `retrieve().onStatus(HttpStatus::is4xxClientError, ignoreHystrixOnClientError()).bodyTo...`,
   * the GET of every command but `streamAll`. Registering a status handler replaces the default
   * one, so only a client error fails on its status: it becomes a `HystrixBadRequestException`
   * around a `ResponseStatusException` with the same status. Any other status, a server error
   * included, is read like a success: the outcome is whatever decoding the body gives. A code
   * without an `HttpStatus` constant fails in `statusCode()` before the check.
   */
  function Retrieve<T>(reply: GetReply<T>): (r: Outcome<T>)
    ensures reply.GetBroken? ==> r == Failed(reply.failure)
    ensures reply.Answered? && !HttpStatus.IsKnown(reply.code) ==> r == Failed(NoMatchingConstant(reply.code))
    ensures reply.Answered? && HttpStatus.IsKnown(reply.code) && HttpStatus.Is4xx(reply.code) ==>
      r == Failed(BadRequest(StatusError(reply.code, None))) && !CountedByCommand(r.failure)
    ensures reply.Answered? && HttpStatus.IsKnown(reply.code) && !HttpStatus.Is4xx(reply.code) ==>
      r == reply.decoded
  {
    match reply
    case Answered(code, decoded) =>
      if !HttpStatus.IsKnown(code) then Failed(NoMatchingConstant(code))
      else if HttpStatus.Is4xx(code) then Failed(BadRequest(StatusError(code, None)))
      else decoded
    case GetBroken(f) => Failed(f)
  }

  /**
   * `retrieve().bodyToFlux(Entry.class)` with no status handler, the GET of `streamAll`: the
   * default handler fails every client or server error with a `WebClientResponseException`
   * carrying the status and its phrase, before the body is read; any other status is decoded.
   */
  function RetrieveStream<T>(reply: GetReply<T>): (r: Outcome<T>)
    ensures reply.GetBroken? ==> r == Failed(reply.failure)
    ensures reply.Answered? && !HttpStatus.IsKnown(reply.code) ==> r == Failed(NoMatchingConstant(reply.code))
    ensures reply.Answered? && HttpStatus.IsKnown(reply.code) && HttpStatus.IsError(reply.code) ==>
      && r.Failed? && r.failure.ResponseError? && r.failure.status == reply.code
      && StartsWith(r.failure.text, "ClientResponse has erroneous status code: ")
      && CountedByCommand(r.failure)
    ensures reply.Answered? && HttpStatus.IsKnown(reply.code) && !HttpStatus.IsError(reply.code) ==>
      r == reply.decoded
  {
    match reply
    case Answered(code, decoded) =>
      if !HttpStatus.IsKnown(code) then Failed(NoMatchingConstant(code))
      else if HttpStatus.IsError(code) then
        var prefix := "ClientResponse has erroneous status code: ";
        assert ErroneousStatus(code)[..|prefix|] == prefix;
        Failed(ResponseError(code, ErroneousStatus(code)))
      else decoded
    case GetBroken(f) => Failed(f)
  }

  /** Without a status handler, an error status fails with the status and its reason phrase. */
  lemma StreamErrorStatus<T>(code: int, decoded: Outcome<T>)
    requires HttpStatus.IsKnown(code) && HttpStatus.IsError(code)
    ensures RetrieveStream(Answered(code, decoded)) == Failed(ResponseError(code, ErroneousStatus(code)))
  {
  }

  /**
   * The two GETs differ only on error statuses: below 400 both decode the body; a client error
   * is an uncounted `ResponseStatusException` under the status handler and a counted
   * `WebClientResponseException` without it; a server error is decoded under the status
   * handler and fails without it.
   */
  lemma HandlersDifferOnlyOnErrors<T>(code: int, decoded: Outcome<T>)
    requires HttpStatus.IsKnown(code)
    ensures !HttpStatus.IsError(code) ==> Retrieve(Answered(code, decoded)) == RetrieveStream(Answered(code, decoded))
    ensures HttpStatus.Is4xx(code) ==>
      && Retrieve(Answered(code, decoded)).failure.BadRequest?
      && RetrieveStream(Answered(code, decoded)).failure.ResponseError?
    ensures HttpStatus.IsError(code) && !HttpStatus.Is4xx(code) ==>
      && Retrieve(Answered(code, decoded)) == decoded
      && RetrieveStream(Answered(code, decoded)).Failed?
  {
  }

  /** `api/entries/{entryId}`: the resource the conditional HEAD asks about. */
  function EntryPath(id: EntryId): string
  {
    "api/entries/" + IntToString(id)
  }

  /** `api/entries/{entryId}?excludeContent=false`: the full fetch. */
  function FullEntryPath(id: EntryId): string
  {
    EntryPath(id) + "?excludeContent=false"
  }

  /** `api/categories/{categories}/entries?...`: the category path is the names joined by commas. */
  function CategoriesPath(categories: seq<string>, page: int, size: int): (path: string)
    ensures StartsWith(path, "api/categories/" + Join(categories, ",") + "/entries?")
  {
    var prefix := "api/categories/" + Join(categories, ",") + "/entries?";
    var query := "page=" + IntToString(page) + "&size=" + IntToString(size) + "&excludeContent=true";
    assert (prefix + query)[..|prefix|] == prefix;
    prefix + query
  }

  /** What one `findById` exchange did, before the cache is written. */
  datatype Exchange = Exchange(requests: seq<Request>, outcome: Outcome<Entry>, store: bool)

  /**
   * The `findById` flow for a cache lookup result `cached`: a hit is revalidated by a HEAD
   * carrying the entry's `updated` date; a 304 answers from the cache; any other known status,
   * or a miss, falls through to the full GET, whose success is to be written to the cache. A
   * failed HEAD, or one whose status has no constant, fails the lookup.
   */
  function Resolve(id: EntryId, cached: Option<Entry>, head: HeadReply, get: GetReply<Entry>): (x: Exchange)
    ensures cached.Some? ==>
      |x.requests| >= 1 && x.requests[0] == Head(EntryPath(id), cached.value.updated.date.rfc1123)
    ensures cached.Some? && head == HeadStatus(HttpStatus.NOT_MODIFIED) ==>
      x == Exchange([Head(EntryPath(id), cached.value.updated.date.rfc1123)], Done(cached.value), false)
    ensures cached.Some? && head.HeadBroken? ==>
      x == Exchange([Head(EntryPath(id), cached.value.updated.date.rfc1123)], Failed(head.failure), false)
    ensures cached.Some? && head.HeadStatus? && !HttpStatus.IsKnown(head.code) ==>
      x == Exchange([Head(EntryPath(id), cached.value.updated.date.rfc1123)], Failed(NoMatchingConstant(head.code)), false)
    ensures cached.None? ==> x == Exchange([Get(FullEntryPath(id))], Retrieve(get), Retrieve(get).Done?)
    ensures cached.Some? && head.HeadStatus? && HttpStatus.IsKnown(head.code) && head.code != HttpStatus.NOT_MODIFIED ==>
      x == Exchange([Head(EntryPath(id), cached.value.updated.date.rfc1123), Get(FullEntryPath(id))],
                    Retrieve(get), Retrieve(get).Done?)
    ensures x.store <==> Get(FullEntryPath(id)) in x.requests && x.outcome.Done?
  {
    var full := Exchange([Get(FullEntryPath(id))], Retrieve(get), Retrieve(get).Done?);
    match cached
    case None => full
    case Some(e) =>
      var conditional := Head(EntryPath(id), e.updated.date.rfc1123);
      match head
      case HeadBroken(f) => Exchange([conditional], Failed(f), false)
      case HeadStatus(code) =>
        if !HttpStatus.IsKnown(code) then Exchange([conditional], Failed(NoMatchingConstant(code)), false)
        else if code == HttpStatus.NOT_MODIFIED then Exchange([conditional], Done(e), false)
        else Exchange([conditional] + full.requests, full.outcome, full.store)
  }

  /** A cached entry and the time it was written. */
  datatype Slot = Slot(entry: Entry, writtenAtMs: int)

  /** Whether a slot is still readable at `nowMs`: it expires once three days have passed since the write. */
  predicate Live(slot: Slot, nowMs: int)
  {
    nowMs - slot.writtenAtMs < TtlMs
  }

  /**
   * How a write of `slot` under `id` may change the cache: the slot is stored, no other key
   * changes its value, at most one other key is evicted and only when the cache was full, and the
   * size bound holds.
   */
  ghost predicate Written(before: map<EntryId, Slot>, after: map<EntryId, Slot>, id: EntryId, slot: Slot)
  {
    && id in after && after[id] == slot
    && after.Keys <= before.Keys + {id}
    && (forall k :: k in after && k != id ==> k in before && after[k] == before[k])
    && |after| <= Capacity
    && (id in before || |before| < Capacity ==> after == before[id := slot])
    && (id !in before && |before| >= Capacity ==> |after| == |before|)
  }

  /** Removing a present key from a map and adding an absent one keeps its size. */
  lemma SwapKeepsSize<K, V>(m: map<K, V>, victim: K, k: K, v: V)
    requires victim in m && k !in m
    ensures |(m - {victim})[k := v]| == |m|
  {
    var rest := m - {victim};
    assert rest.Keys == m.Keys - {victim};
    assert |rest.Keys| == |m.Keys| - 1;
    assert rest[k := v].Keys == rest.Keys + {k};
  }

  /** Some key of a non-empty map; which one is left open. */
  method AnyKey<K, V>(m: map<K, V>) returns (k: K)
    requires |m| > 0
    ensures k in m
  {
    k :| k in m;
  }

  class RxBlogHttpClient {
    /** The Caffeine cache `entryCache`: entry id to entry and write time. */
    var entryCache: map<EntryId, Slot>

    ghost predicate Valid()
      reads this
    {
      |entryCache| <= Capacity
    }

    constructor ()
      ensures Valid() && entryCache == map[]
    {
      entryCache := map[];
    }

    /** `entryCache.get(key, x -> null)`: the entry when present and not expired. */
    function Lookup(id: EntryId, nowMs: int): (r: Option<Entry>)
      reads this
      ensures r.Some? <==> id in entryCache && Live(entryCache[id], nowMs)
      ensures r.Some? ==> r.value == entryCache[id].entry
    {
      if id in entryCache && Live(entryCache[id], nowMs) then Some(entryCache[id].entry) else None
    }

    /** `entryCache.put(id, entry)`; a full cache evicts one entry of Caffeine's choosing. */
    method Put(id: EntryId, slot: Slot)
      requires Valid()
      modifies this
      ensures Valid()
      ensures Written(old(entryCache), entryCache, id, slot)
    {
      if id !in entryCache && |entryCache| >= Capacity {
        var victim := AnyKey(entryCache);
        SwapKeepsSize(entryCache, victim, id, slot);
        entryCache := (entryCache - {victim})[id := slot];
      } else {
        entryCache := entryCache[id := slot];
      }
    }

    /**
     * `findById(entryId)` at time `nowMs`, against an API that answers the HEAD with `head` and
     * the GET with `get` (each only if it is sent). Returns the outcome and the requests sent.
     */
    method FindById(id: EntryId, nowMs: int, head: HeadReply, get: GetReply<Entry>)
      returns (r: Outcome<Entry>, sent: seq<Request>)
      requires Valid()
      modifies this
      ensures Valid()
      ensures var x := Resolve(id, old(Lookup(id, nowMs)), head, get);
        && r == x.outcome && sent == x.requests
        && (x.store ==> Written(old(entryCache), entryCache, id, Slot(r.value, nowMs)))
        && (!x.store ==> entryCache == old(entryCache))
        && (x.store ==> forall t :: nowMs <= t < nowMs + TtlMs ==> Lookup(id, t) == Some(r.value))
    {
      var x := Resolve(id, Lookup(id, nowMs), head, get);
      r, sent := x.outcome, x.requests;
      if x.store {
        Put(id, Slot(r.value, nowMs));
      }
    }

    /** `clearCache()`: `invalidateAll`. */
    method ClearCache()
      modifies this
      ensures Valid() && entryCache == map[]
      ensures forall id, nowMs :: Lookup(id, nowMs) == None
    {
      entryCache := map[];
    }
  }
}
