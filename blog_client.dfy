/**
 * The default `streamX` methods of the `BlogClient` interface: each flattens the result of its
 * `findX` counterpart into a stream.
 */
module BlogClient {
  import opened Wrappers
  import opened BlogModel
  import opened Reactive

  /** `streamAll`, `streamByQuery`, `streamByCategories`, `streamByTag`: the page's entries, one by one. */
  function StreamContent(page: Mono<BlogEntries>): (r: Flux<Entry>)
    ensures page.MonoValue? ==> r.items == page.value.content && r.error.None?
    ensures page.MonoEmpty? ==> r == Flux([], None)
    ensures page.MonoError? ==> r == Flux([], Some(page.failure))
  {
    FlatMapIterable(page, (x: BlogEntries) => x.content)
  }

  /** `streamTags`, `streamCategories`: the list's elements, one by one. */
  function StreamList<T>(list: Mono<seq<T>>): (r: Flux<T>)
    ensures list.MonoValue? ==> r.items == list.value && r.error.None?
    ensures list.MonoEmpty? ==> r == Flux([], None)
    ensures list.MonoError? ==> r == Flux([], Some(list.failure))
  {
    FlatMapIterable(list, (l: seq<T>) => l)
  }

  /**
   * Collecting a default stream gives back exactly the `find` result's entries, in order, and
   * its error when it failed.
   */
  lemma StreamContentCollects(page: Mono<BlogEntries>)
    ensures CollectList(StreamContent(page)) == match page {
      case MonoValue(p) => MonoValue(p.content)
      case MonoEmpty => MonoValue([])
      case MonoError(e) => MonoError(e) }
  {
  }

  /** Collecting `streamTags` or `streamCategories` gives back the `find` result's list, none dropped. */
  lemma StreamListCollects<T>(list: Mono<seq<T>>)
    ensures list.MonoValue? ==> CollectList(StreamList(list)) == list
  {
  }
}
