/** Values that cross the boundary of the handle operator: errors, the calls a
    handler makes on its sink, and the signals the operator sends out to its
    downstream subscriber, to its upstream subscription and to the drop hooks. */
module Signals {

  datatype Option<+A> = None | Some(value: A)

  datatype Result<+A, +E> = Success(value: A) | Failure(error: E)

  /** A Java Throwable, as far as the operator tells them apart. */
  datatype Throwable<T> =
    | Raised(id: int)                      // any error raised by user code or by upstream
    | IllegalState                         // SynchronousSink.next called twice in one turn
    | NullPointer                          // Objects.requireNonNull on a null argument
    | Tagged(cause: Throwable<T>, item: T) // an error tagged with the item that caused it

  /** An upstream Subscription, by identity. */
  datatype Subscription = Subscription(id: nat)

  /** One call a handler makes on its SynchronousSink. None stands for a Java null argument. */
  datatype SinkOp<T, R> = Next(value: Option<R>) | Complete | Error(error: Option<Throwable<T>>)

  /** What the handler does when it is given one item: its sink calls, in order,
      and then it either returns (throws == None) or throws. */
  datatype Turn<T, R> = Turn(ops: seq<SinkOp<T, R>>, throws: Option<Throwable<T>>)

  /** A call on the downstream Subscriber. */
  datatype Event<T, R> =
    | OnSubscribe
    | OnNext(value: R)
    | TryOnNext(value: R)
    | OnError(error: Throwable<T>)
    | OnComplete

  /** A call on an upstream Subscription; n is passed through verbatim. */
  datatype UpstreamOp = Request(n: int) | Cancel

  /** Everything the operator does to the world outside it, in order. */
  datatype Signal<T, R> =
    | Down(event: Event<T, R>)
    | Up(sub: Subscription, op: UpstreamOp)
    | DroppedItem(item: T)               // Operators.onNextDropped
    | DroppedError(error: Throwable<T>)  // Operators.onErrorDropped

  /** A call made on the operator from outside: by upstream or by downstream. */
  datatype Input<T> =
    | UpstreamSubscribe(sub: Subscription)
    | UpstreamNext(item: T)
    | UpstreamTryNext(item: T, accepted: bool) // accepted: what downstream's tryOnNext answers, if asked
    | UpstreamError(error: Throwable<T>)
    | UpstreamComplete
    | DownstreamRequest(n: int)
    | DownstreamCancel

  predicate IsTerminal<T, R>(g: Signal<T, R>) {
    g.Down? && (g.event.OnError? || g.event.OnComplete?)
  }

  /** A downstream signal that Reactive Streams rule 1.7 forbids after a terminal one. */
  predicate IsDelivery<T, R>(g: Signal<T, R>) {
    g.Down? && !g.event.OnSubscribe?
  }

  predicate IsSubscribe<T, R>(g: Signal<T, R>) {
    g.Down? && g.event.OnSubscribe?
  }

  predicate HasTerminal<T, R>(tr: seq<Signal<T, R>>) {
    exists i :: 0 <= i < |tr| && IsTerminal(tr[i])
  }

  /** Nothing in tr reaches the downstream subscriber except, possibly, onSubscribe. */
  predicate Quiet<T, R>(tr: seq<Signal<T, R>>) {
    forall i :: 0 <= i < |tr| ==> !IsDelivery(tr[i])
  }

  /** Reactive Streams rule 1.7: once a terminal signal has been sent downstream,
      no further onNext, onError or onComplete follows it. */
  predicate RuleOneSeven<T, R>(tr: seq<Signal<T, R>>) {
    forall i, j :: 0 <= i < j < |tr| && IsTerminal(tr[i]) ==> !IsDelivery(tr[j])
  }

  /** How many times downstream received onSubscribe. */
  function Subscribes<T, R>(tr: seq<Signal<T, R>>): nat {
    if tr == [] then 0
    else Subscribes(tr[..|tr| - 1]) + (if IsSubscribe(tr[|tr| - 1]) then 1 else 0)
  }

  lemma {:induction false} SubscribesAppend<T, R>(a: seq<Signal<T, R>>, b: seq<Signal<T, R>>)
    ensures Subscribes(a + b) == Subscribes(a) + Subscribes(b)
    decreases |b|
  {
    if b == [] {
      assert a + b == a;
    } else {
      var b' := b[..|b| - 1];
      assert (a + b)[..|a + b| - 1] == a + b';
      SubscribesAppend(a, b');
    }
  }

  /** Under rule 1.7 there is at most one terminal signal. */
  lemma SingleTerminal<T, R>(tr: seq<Signal<T, R>>, i: nat, j: nat)
    requires RuleOneSeven(tr)
    requires i < |tr| && j < |tr| && IsTerminal(tr[i]) && IsTerminal(tr[j])
    ensures i == j
  {
  }

  lemma {:induction false} NoSubscribes<T, R>(tr: seq<Signal<T, R>>)
    requires forall i :: 0 <= i < |tr| ==> !IsSubscribe(tr[i])
    ensures Subscribes(tr) == 0
    decreases |tr|
  {
    if tr != [] {
      NoSubscribes(tr[..|tr| - 1]);
    }
  }

  /** What one call sends out when only its last signal may be terminal and none
      is onSubscribe: it obeys rule 1.7 on its own. */
  lemma LastMayTerminate<T, R>(pre: seq<Signal<T, R>>, last: seq<Signal<T, R>>)
    requires forall i :: 0 <= i < |pre| ==> !IsTerminal(pre[i]) && !IsSubscribe(pre[i])
    requires |last| <= 1 && (forall i :: 0 <= i < |last| ==> !IsSubscribe(last[i]))
    ensures RuleOneSeven(pre + last)
    ensures HasTerminal(pre + last) <==> HasTerminal(last)
    ensures Subscribes(pre + last) == 0
  {
    var all := pre + last;
    forall i | 0 <= i < |all| ensures !IsSubscribe(all[i]) {
      if i >= |pre| { assert all[i] == last[i - |pre|]; }
    }
    NoSubscribes(all);
    if HasTerminal(all) {
      var i :| 0 <= i < |all| && IsTerminal(all[i]);
      assert i >= |pre| && all[i] == last[i - |pre|];
    }
    if HasTerminal(last) {
      assert all[|pre|] == last[0];
    }
  }

  /** Appending what one call sends out to the trace so far: rule 1.7 survives as
      long as the new part obeys it and is quiet once the old part has terminated. */
  lemma Extend<T, R>(tr: seq<Signal<T, R>>, out: seq<Signal<T, R>>)
    requires RuleOneSeven(tr) && RuleOneSeven(out)
    requires HasTerminal(tr) ==> Quiet(out)
    ensures RuleOneSeven(tr + out)
    ensures HasTerminal(tr + out) <==> HasTerminal(tr) || HasTerminal(out)
    ensures Subscribes(tr + out) == Subscribes(tr) + Subscribes(out)
  {
    var all := tr + out;
    forall i, j | 0 <= i < j < |all| && IsTerminal(all[i])
      ensures !IsDelivery(all[j])
    {
      if i < |tr| {
        assert HasTerminal(tr);
        if j >= |tr| {
          assert all[j] == out[j - |tr|];
        }
      } else {
        assert all[i] == out[i - |tr|] && all[j] == out[j - |tr|];
      }
    }
    if HasTerminal(all) {
      var i :| 0 <= i < |all| && IsTerminal(all[i]);
      if i >= |tr| {
        assert all[i] == out[i - |tr|];
      }
    }
    if HasTerminal(tr) {
      var i :| 0 <= i < |tr| && IsTerminal(tr[i]);
      assert all[i] == tr[i];
    }
    if HasTerminal(out) {
      var i :| 0 <= i < |out| && IsTerminal(out[i]);
      assert all[|tr| + i] == out[i];
    }
    SubscribesAppend(tr, out);
  }
}

/** The keys and answers of Scannable.scan that the handle operator's subscribers
    answer themselves. */
module Scannable {
  import opened Signals

  datatype Attr = Parent | Terminated | Error | Other

  datatype ScanValue<T> =
    | ParentValue(parent: Option<Subscription>)
    | TerminatedValue(terminated: bool)
    | ErrorValue(error: Option<Throwable<T>>)
    | Inherited   // left to the default answer of InnerOperator
}
