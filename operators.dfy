/** The two helpers of reactor's Operators class that the handle operator calls
    and whose effect matters to it. Their bodies are not part of this model: the
    behaviour below is what the operator relies on. */
module Operators {
  import opened Signals

  /** Operators.onOperatorError(subscription, error, item): cancels the given
      subscription, when there is one, and yields the error tagged with the item
      that caused it. The first component is the error, the second what was sent. */
  function OnOperatorError<T, R>(sub: Option<Subscription>, e: Throwable<T>, item: T)
    : (r: (Throwable<T>, seq<Signal<T, R>>))
    ensures r.0.Tagged? && r.0.cause == e && r.0.item == item
    ensures sub.None? ==> r.1 == []
    ensures sub.Some? ==> r.1 == [Up(sub.value, Cancel)]
  {
    (Tagged(e, item), if sub.Some? then [Up(sub.value, Cancel)] else [])
  }

  /** Operators.validate(current, next): accepts next when no subscription is held
      yet; otherwise cancels next, as rule 2.5 of the Reactive Streams
      specification asks, and refuses it. */
  function Validate<T, R>(current: Option<Subscription>, next: Subscription): (r: (bool, seq<Signal<T, R>>))
    ensures r.0 <==> current.None?
    ensures r.0 ==> r.1 == []
    ensures !r.0 ==> r.1 == [Up(next, Cancel)]
  {
    if current.None? then (true, []) else (false, [Up(next, Cancel)])
  }
}
