/** FluxHandle itself: building the operator from a handler, choosing the
    subscriber variant when a downstream subscribes, and the behaviour of the
    operator on three concrete streams. */
module HandleOperator {
  import opened Signals
  import StandardPath
  import ConditionalPath
  import Sink

  /** The operator holds nothing but its handler; the upstream Flux it wraps is
      not part of this model. */
  datatype FluxHandle<!T, R> = FluxHandle(handler: T -> Turn<T, R>)

  /** new FluxHandle(source, handler): a null handler (None) is rejected with a
      NullPointerException; any other handler is kept as given. */
  function NewFluxHandle<T, R>(handler: Option<T -> Turn<T, R>>): (r: Result<FluxHandle<T, R>, Throwable<T>>)
    ensures r.Failure? <==> handler.None?
    ensures r.Failure? ==> r.error == NullPointer
    ensures r.Success? ==> r.value.handler == handler.value
  {
    if handler.None? then Failure(NullPointer) else Success(FluxHandle(handler.value))
  }

  /** The subscriber that subscribe hands to the upstream Flux: one of the two variants. */
  datatype HandleSubscriberVariant<T, R> =
    | Plain(plain: StandardPath.HandleSubscriber<T, R>)
    | Conditional(conditional: ConditionalPath.HandleConditionalSubscriber<T, R>)

  /** subscribe(actual): a fresh HandleConditionalSubscriber exactly when the
      downstream subscriber is a ConditionalSubscriber, a fresh HandleSubscriber
      otherwise; either starts with no subscription, nothing recorded and
      nothing sent. */
  method Subscribe<T, R>(op: FluxHandle<T, R>, downstreamIsConditional: bool) returns (sub: HandleSubscriberVariant<T, R>)
    ensures sub.Conditional? <==> downstreamIsConditional
    ensures sub.Plain? ==> fresh(sub.plain) && sub.plain.handler == op.handler
                           && sub.plain.Current() == StandardPath.Initial() && sub.plain.trace == []
    ensures sub.Conditional? ==> fresh(sub.conditional) && sub.conditional.handler == op.handler
                                 && sub.conditional.Current() == ConditionalPath.Initial()
                                 && sub.conditional.trace == []
  {
    if downstreamIsConditional {
      var cs := new ConditionalPath.HandleConditionalSubscriber(op.handler);
      return Conditional(cs);
    }
    var hs := new StandardPath.HandleSubscriber(op.handler);
    return Plain(hs);
  }

  // ---------------------------------------------------------------------------
  // Three streams of 1, 2, 3, 4, 5 through a HandleSubscriber

  const LongMax: int := 0x7fff_ffff_ffff_ffff

  /** Forward the item doubled if it is even, drop it otherwise. */
  function Doubling(t: int): Turn<int, int> {
    if t % 2 == 0 then Turn([Next(Some(2 * t))], None) else Turn([], None)
  }

  /** Emit the item, and complete as well when the item is 3. */
  function StopAtThree(t: int): Turn<int, int> {
    if t == 3 then Turn([Next(Some(t)), Complete], None) else Turn([Next(Some(t))], None)
  }

  /** Emit the item, but throw on the item 3. */
  function FailAtThree(t: int): Turn<int, int> {
    if t == 3 then Turn([], Some(Raised(3))) else Turn([Next(Some(t))], None)
  }

  function Items(): seq<Input<int>> {
    [UpstreamNext(1), UpstreamNext(2), UpstreamNext(3), UpstreamNext(4), UpstreamNext(5), UpstreamComplete]
  }

  /** A fresh HandleSubscriber right after upstream subscribed with sub. */
  function Subscribed(sub: Subscription): StandardPath.State<int, int> {
    StandardPath.OnSubscribeStep<int, int>(StandardPath.Initial(), sub).st
  }

  /** Running one call, then the rest. */
  lemma {:induction false} RunCons(handler: int -> Turn<int, int>, st: StandardPath.State<int, int>, i: Input<int>, rest: seq<Input<int>>)
    requires st.s.Some?
    ensures var f := StandardPath.Deliver(handler, st, i);
            var r := StandardPath.Run(handler, f.st, rest);
            StandardPath.Run(handler, st, [i] + rest) == StandardPath.Step(r.st, f.out + r.out)
  {
    assert ([i] + rest)[0] == i && ([i] + rest)[1..] == rest;
  }

  /** Doubling the even items with unbounded demand: downstream gets 4 and 8 and
      then onComplete, and each of the three odd items is replaced upstream by a
      request(1). */
  lemma MapAndFilterScenario(sub: Subscription)
    ensures var inputs := [DownstreamRequest(LongMax)] + Items();
            StandardPath.Run(Doubling, Subscribed(sub), inputs).out
            == [Up(sub, Request(LongMax)),
                Up(sub, Request(1)), Down(OnNext(4)), Up(sub, Request(1)), Down(OnNext(8)), Up(sub, Request(1)),
                Down(OnComplete)]
  {
    var st := Subscribed(sub);
    var done := st.(done := true);
    StandardPath.FilteredRequestsOne(st, 1);
    StandardPath.FilteredRequestsOne(st, 3);
    StandardPath.FilteredRequestsOne(st, 5);
    StandardPath.CancelKeepsDelivering(st, 2, 4);
    StandardPath.CancelKeepsDelivering(st, 4, 8);
    RunCons(Doubling, done, UpstreamComplete, []);
    RunCons(Doubling, st, UpstreamComplete, []);
    RunCons(Doubling, st, UpstreamNext(5), [UpstreamComplete]);
    RunCons(Doubling, st, UpstreamNext(4), [UpstreamNext(5), UpstreamComplete]);
    RunCons(Doubling, st, UpstreamNext(3), [UpstreamNext(4), UpstreamNext(5), UpstreamComplete]);
    RunCons(Doubling, st, UpstreamNext(2), [UpstreamNext(3), UpstreamNext(4), UpstreamNext(5), UpstreamComplete]);
    RunCons(Doubling, st, UpstreamNext(1), Items()[1..]);
    RunCons(Doubling, st, DownstreamRequest(LongMax), Items());
  }

  /** Completing from the handler at 3: downstream gets 1, 2, 3 and onComplete,
      upstream is cancelled right after 3, and 4 and 5, should they still
      arrive, are dropped. */
  lemma EarlyTerminationScenario(sub: Subscription)
    ensures StandardPath.Run(StopAtThree, Subscribed(sub), Items()).out
            == [Down(OnNext(1)), Down(OnNext(2)), Down(OnNext(3)), Up(sub, Cancel), Down(OnComplete),
                DroppedItem(4), DroppedItem(5)]
  {
    var st := Subscribed(sub);
    var done := st.(done := true, stop := true);
    StandardPath.CancelKeepsDelivering(st, 1, 1);
    StandardPath.CancelKeepsDelivering(st, 2, 2);
    var ops: seq<SinkOp<int, int>> := [Next(Some(3)), Complete];
    assert ops[1..] == [Complete];
    var sl := StandardPath.SlotOf(st);
    assert Sink.RunOps(sl.(data := Some(3)), [Complete], None) == Sink.Outcome(sl.(data := Some(3), flag := true), None);
    RunCons(StopAtThree, done, UpstreamComplete, []);
    RunCons(StopAtThree, done, UpstreamNext(5), [UpstreamComplete]);
    RunCons(StopAtThree, done, UpstreamNext(4), [UpstreamNext(5), UpstreamComplete]);
    RunCons(StopAtThree, st, UpstreamNext(3), [UpstreamNext(4), UpstreamNext(5), UpstreamComplete]);
    RunCons(StopAtThree, st, UpstreamNext(2), [UpstreamNext(3), UpstreamNext(4), UpstreamNext(5), UpstreamComplete]);
    RunCons(StopAtThree, st, UpstreamNext(1), Items()[1..]);
    assert Items() == [UpstreamNext(1)] + Items()[1..];
  }

  /** A handler that throws on 3: downstream gets 1, 2 and then a single onError
      carrying the exception tagged with 3, upstream is cancelled, and 4 and 5
      are dropped. */
  lemma HandlerFaultScenario(sub: Subscription)
    ensures StandardPath.Run(FailAtThree, Subscribed(sub), Items()).out
            == [Down(OnNext(1)), Down(OnNext(2)), Up(sub, Cancel), Down(OnError(Tagged(Raised(3), 3))),
                DroppedItem(4), DroppedItem(5)]
  {
    var st := Subscribed(sub);
    var done := st.(done := true);
    StandardPath.CancelKeepsDelivering(st, 1, 1);
    StandardPath.CancelKeepsDelivering(st, 2, 2);
    StandardPath.ThrowCancelsAndErrors(st, 3, FailAtThree(3));
    RunCons(FailAtThree, done, UpstreamComplete, []);
    RunCons(FailAtThree, done, UpstreamNext(5), [UpstreamComplete]);
    RunCons(FailAtThree, done, UpstreamNext(4), [UpstreamNext(5), UpstreamComplete]);
    RunCons(FailAtThree, st, UpstreamNext(3), [UpstreamNext(4), UpstreamNext(5), UpstreamComplete]);
    RunCons(FailAtThree, st, UpstreamNext(2), [UpstreamNext(3), UpstreamNext(4), UpstreamNext(5), UpstreamComplete]);
    RunCons(FailAtThree, st, UpstreamNext(1), Items()[1..]);
    assert Items() == [UpstreamNext(1)] + Items()[1..];
  }
}
