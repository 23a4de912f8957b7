/**
 * Finished Reactor publishers as values: a `Mono` ends with one value, with nothing or with an
 * error; a `Flux` emits its items in order and then completes or ends with an error. Only the
 * operators the blog clients use are modelled.
 */
module Reactive {
  import opened Wrappers
  import opened Failures

  datatype Mono<+T> = MonoValue(value: T) | MonoEmpty | MonoError(failure: Failure)

  datatype Flux<+T> = Flux(items: seq<T>, error: Option<Failure>)

  /** `mono.flatMapMany(x -> Flux.fromIterable(f(x)))`. */
  function FlatMapIterable<T, U>(m: Mono<T>, f: T -> seq<U>): (r: Flux<U>)
    ensures m.MonoValue? ==> r == Flux(f(m.value), None)
    ensures !m.MonoValue? ==> r.items == []
    ensures r.error.Some? <==> m.MonoError?
    ensures m.MonoError? ==> r.error == Some(m.failure)
  {
    match m
    case MonoValue(v) => Flux(f(v), None)
    case MonoEmpty => Flux([], None)
    case MonoError(e) => Flux([], Some(e))
  }

  /** `flux.collectList()`: the items in order when the flux completes, its error otherwise. */
  function CollectList<T>(x: Flux<T>): (r: Mono<seq<T>>)
    ensures r.MonoValue? <==> x.error.None?
    ensures r.MonoValue? ==> r.value == x.items
    ensures x.error.Some? ==> r == MonoError(x.error.value)
  {
    match x.error
    case None => MonoValue(x.items)
    case Some(e) => MonoError(e)
  }

  /** `mono.map(f)`. */
  function MapMono<T, U>(m: Mono<T>, f: T -> U): (r: Mono<U>)
    ensures m.MonoValue? <==> r.MonoValue?
    ensures m.MonoValue? ==> r.value == f(m.value)
    ensures m.MonoEmpty? ==> r.MonoEmpty?
    ensures m.MonoError? ==> r == MonoError(m.failure)
  {
    match m
    case MonoValue(v) => MonoValue(f(v))
    case MonoEmpty => MonoEmpty
    case MonoError(e) => MonoError(e)
  }

  /** Collecting a flux and flattening the list again gives back the flux, except that an error drops the items emitted before it. */
  lemma CollectThenFlatten<T>(x: Flux<T>)
    ensures FlatMapIterable(CollectList(x), (l: seq<T>) => l)
      == if x.error.None? then x else Flux([], x.error)
  {
  }

  /** Flattening a list-valued mono and collecting the result gives back the list (an empty mono gives the empty list). */
  lemma FlattenThenCollect<T>(m: Mono<seq<T>>)
    ensures CollectList(FlatMapIterable(m, (l: seq<T>) => l))
      == match m { case MonoValue(l) => MonoValue(l) case MonoEmpty => MonoValue([]) case MonoError(e) => MonoError(e) }
  {
  }
}
