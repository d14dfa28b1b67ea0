/** FluxHandle.HandleSubscriber: the handle operator's subscriber when the
    downstream subscriber is not a ConditionalSubscriber. complete() and error()
    raise a `stop` flag of their own; after the handler returns, a raised `stop`
    cancels upstream and terminates through this subscriber's own onError or
    onComplete. */
module StandardPath {
  import opened Signals
  import opened Operators
  import Sink
  import Scannable

  /** The fields of a HandleSubscriber. */
  datatype State<T, R> = State(done: bool, stop: bool, error: Option<Throwable<T>>, data: Option<R>, s: Option<Subscription>)

  /** The fields after one call, and what the call sent out, in order. */
  datatype Step<T, R> = Step(st: State<T, R>, out: seq<Signal<T, R>>)

  function Initial<T, R>(): State<T, R> {
    State(false, false, None, None, None)
  }

  function SlotOf<T, R>(st: State<T, R>): Sink.Slot<T, R> {
    Sink.Slot(st.data, st.stop, st.error)
  }

  function WithSlot<T, R>(st: State<T, R>, sl: Sink.Slot<T, R>): State<T, R> {
    st.(data := sl.data, stop := sl.flag, error := sl.error)
  }

  /** Between two calls, a subscriber that has not terminated holds no value, no
      raised stop flag and no error. */
  predicate Idle<T, R>(st: State<T, R>) {
    !st.done ==> st.data.None? && !st.stop && st.error.None?
  }

  /** How the fields relate to the trace of everything sent so far: done exactly
      when downstream has had its terminal signal, rule 1.7, and one onSubscribe
      exactly when a subscription is held. */
  ghost predicate Inv<T, R>(st: State<T, R>, tr: seq<Signal<T, R>>) {
    && (st.done <==> HasTerminal(tr))
    && RuleOneSeven(tr)
    && Subscribes(tr) == (if st.s.Some? then 1 else 0)
    && Idle(st)
  }

  function Forwarded<T, R>(v: Option<R>): seq<Signal<T, R>> {
    if v.Some? then [Down(OnNext(v.value))] else []
  }

  /** onSubscribe: the first subscription is stored and announced downstream; a
      later one is cancelled and nothing else changes. */
  function OnSubscribeStep<T, R>(st: State<T, R>, sub: Subscription): (r: Step<T, R>)
    ensures r.st.s.Some? && r.st == st.(s := r.st.s)
    ensures st.s.None? ==> r.st.s == Some(sub) && r.out == [Down(OnSubscribe)]
    ensures st.s.Some? ==> r.st == st && r.out == [Up(sub, Cancel)]
  {
    var (ok, rejected) := Validate<T, R>(st.s, sub);
    if ok then Step(st.(s := Some(sub)), rejected + [Down(OnSubscribe)]) else Step(st, rejected)
  }

  /** onError: done afterwards in any case; the error goes downstream when not
      yet done, to the dropped-error hook otherwise. */
  function OnErrorStep<T, R>(st: State<T, R>, e: Throwable<T>): (r: Step<T, R>)
    ensures r.st == st.(done := true)
    ensures !st.done ==> r.out == [Down(OnError(e))]
    ensures st.done ==> r.out == [DroppedError(e)]
  {
    if st.done then Step(st, [DroppedError(e)]) else Step(st.(done := true), [Down(OnError(e))])
  }

  /** onComplete: done afterwards in any case; onComplete goes downstream only
      when not yet done. */
  function OnCompleteStep<T, R>(st: State<T, R>): (r: Step<T, R>)
    ensures r.st == st.(done := true)
    ensures !st.done ==> r.out == [Down(OnComplete)]
    ensures st.done ==> r.out == []
  {
    if st.done then Step(st, []) else Step(st.(done := true), [Down(OnComplete)])
  }

  /** What follows a handler that returned normally, up to the stop/filter
      decision; shared by onNext and tryOnNext, which differ only after it. */
  function AfterStop<T, R>(st2: State<T, R>, t: T, sent: seq<Signal<T, R>>): (r: Step<T, R>)
    requires st2.s.Some?
    ensures r.st == st2.(done := true)
    ensures !st2.done ==> r.out == sent + [Up(st2.s.value, Cancel),
                                           Down(if st2.error.Some? then OnError(Tagged(st2.error.value, t)) else OnComplete)]
  {
    var term := if st2.error.Some? then OnErrorStep(st2, OnOperatorError<T, R>(None, st2.error.value, t).0)
                else OnCompleteStep(st2);
    Step(term.st, sent + [Up(st2.s.value, Cancel)] + term.out)
  }

  /** onNext(t), with the handler behaving as `turn` for t. */
  function OnNextStep<T, R>(st: State<T, R>, t: T, turn: Turn<T, R>): (r: Step<T, R>)
    requires st.s.Some?
    ensures r.st.s == st.s
    ensures st.done ==> r == Step(st, [DroppedItem(t)])
    ensures var o := Sink.RunHandler(SlotOf(st), turn);
            !st.done ==> (r.st.done <==> o.thrown.Some? || o.slot.flag)
  {
    if st.done then Step(st, [DroppedItem(t)])
    else
      var o := Sink.RunHandler(SlotOf(st), turn);
      var st1 := WithSlot(st, o.slot);
      if o.thrown.Some? then
        var (e, cancelled) := OnOperatorError<T, R>(st.s, o.thrown.value, t);
        var r := OnErrorStep(st1, e);
        Step(r.st, cancelled + r.out)
      else
        var v := st1.data;
        var st2 := st1.(data := None);
        if st2.stop then AfterStop(st2, t, Forwarded(v))
        else if v.None? then Step(st2, [Up(st.s.value, Request(1))])
        else Step(st2, Forwarded(v))
  }

  /** tryOnNext(t): the same new fields as onNext(t), and the same signals,
      except that a filtered item is not replaced by a request(1). */
  function TryOnNextStep<T, R>(st: State<T, R>, t: T, turn: Turn<T, R>): (r: (Step<T, R>, bool))
    requires st.s.Some?
    ensures r.0.st == OnNextStep(st, t, turn).st
    ensures r.0.out == OnNextStep(st, t, turn).out
            || (r.0.out == [] && OnNextStep(st, t, turn).out == [Up(st.s.value, Request(1))] && !r.1)
  {
    if st.done then (Step(st, [DroppedItem(t)]), false)
    else
      var o := Sink.RunHandler(SlotOf(st), turn);
      var st1 := WithSlot(st, o.slot);
      if o.thrown.Some? then
        var (e, cancelled) := OnOperatorError<T, R>(st.s, o.thrown.value, t);
        var r := OnErrorStep(st1, e);
        (Step(r.st, cancelled + r.out), false)
      else
        var v := st1.data;
        var st2 := st1.(data := None);
        if st2.stop then (AfterStop(st2, t, Forwarded(v)), true)
        else (Step(st2, Forwarded(v)), v.Some?)
  }

  /** request(n): forwarded verbatim upstream; no field changes. */
  function RequestStep<T, R>(st: State<T, R>, n: int): (r: Step<T, R>)
    requires st.s.Some?
    ensures r.st == st && r.out == [Up(st.s.value, Request(n))]
  {
    Step(st, [Up(st.s.value, Request(n))])
  }

  /** cancel(): forwarded upstream; no field changes, in particular no flag. */
  function CancelStep<T, R>(st: State<T, R>): (r: Step<T, R>)
    requires st.s.Some?
    ensures r.st == st && r.out == [Up(st.s.value, Cancel)]
  {
    Step(st, [Up(st.s.value, Cancel)])
  }

  /** One call from upstream or downstream, once subscribed; the handler decides
      the turn of each item. A held subscription is never replaced. */
  function Deliver<T, R>(handler: T -> Turn<T, R>, st: State<T, R>, input: Input<T>): (r: Step<T, R>)
    requires st.s.Some?
    ensures r.st.s == st.s
  {
    match input
    case UpstreamSubscribe(sub) => OnSubscribeStep(st, sub)
    case UpstreamNext(t) => OnNextStep(st, t, handler(t))
    case UpstreamTryNext(t, _) => TryOnNextStep(st, t, handler(t)).0
    case UpstreamError(e) => OnErrorStep(st, e)
    case UpstreamComplete => OnCompleteStep(st)
    case DownstreamRequest(n) => RequestStep(st, n)
    case DownstreamCancel => CancelStep(st)
  }

  /** A sequence of calls, one after the other; the subscription held at the start
      is the one held at the end. */
  function Run<T, R>(handler: T -> Turn<T, R>, st: State<T, R>, inputs: seq<Input<T>>): (r: Step<T, R>)
    requires st.s.Some?
    ensures r.st.s == st.s
    decreases |inputs|
  {
    if inputs == [] then Step(st, [])
    else
      var first := Deliver(handler, st, inputs[0]);
      var rest := Run(handler, first.st, inputs[1..]);
      Step(rest.st, first.out + rest.out)
  }

  // ---------------------------------------------------------------------------
  // The invariant is kept by every call

  /** A step that keeps Inv whatever trace came before it. */
  ghost predicate Fits<T, R>(st: State<T, R>, r: Step<T, R>) {
    && Idle(r.st)
    && RuleOneSeven(r.out)
    && (st.done ==> Quiet(r.out))
    && (r.st.done <==> st.done || HasTerminal(r.out))
    && Subscribes(r.out) == (if st.s.None? && r.st.s.Some? then 1 else 0)
    && (st.s.Some? ==> r.st.s == st.s)
  }

  lemma FitsKeepsInv<T, R>(st: State<T, R>, tr: seq<Signal<T, R>>, r: Step<T, R>)
    requires Inv(st, tr) && Fits(st, r)
    ensures Inv(r.st, tr + r.out)
  {
    Extend(tr, r.out);
  }

  lemma OnSubscribeFits<T, R>(st: State<T, R>, sub: Subscription)
    requires Idle(st)
    ensures Fits(st, OnSubscribeStep(st, sub))
  {
    var r := OnSubscribeStep(st, sub);
    if st.s.None? {
      var out: seq<Signal<T, R>> := [Down(OnSubscribe)];
      assert r.out == out;
      assert out[..0] == [];
      assert Subscribes(out) == 1;
      assert !HasTerminal(out) by { assert !IsTerminal(out[0]); }
    } else {
      LastMayTerminate<T, R>([Up(sub, Cancel)], []);
      assert r.out == [Up(sub, Cancel)] + [];
    }
  }

  lemma OnErrorFits<T, R>(st: State<T, R>, e: Throwable<T>)
    requires Idle(st)
    ensures Fits(st, OnErrorStep(st, e))
  {
    var r := OnErrorStep(st, e);
    LastMayTerminate([], r.out);
    assert r.out == [] + r.out;
  }

  lemma OnCompleteFits<T, R>(st: State<T, R>)
    requires Idle(st)
    ensures Fits(st, OnCompleteStep(st))
  {
    var r := OnCompleteStep(st);
    LastMayTerminate([], r.out);
    assert r.out == [] + r.out;
  }

  lemma AfterStopFits<T, R>(st: State<T, R>, st2: State<T, R>, t: T, v: Option<R>)
    requires !st.done && !st2.done && st2.s == st.s && st2.s.Some?
    ensures Fits(st, AfterStop(st2, t, Forwarded(v)))
  {
    var r := AfterStop(st2, t, Forwarded(v));
    var term := if st2.error.Some? then OnErrorStep(st2, OnOperatorError<T, R>(None, st2.error.value, t).0)
                else OnCompleteStep(st2);
    LastMayTerminate(Forwarded(v) + [Up(st2.s.value, Cancel)], term.out);
    assert HasTerminal(term.out) by { assert IsTerminal(term.out[0]); }
  }

  lemma OnNextFits<T, R>(st: State<T, R>, t: T, turn: Turn<T, R>)
    requires Idle(st) && st.s.Some?
    ensures Fits(st, OnNextStep(st, t, turn))
  {
    var r := OnNextStep(st, t, turn);
    if st.done {
      LastMayTerminate<T, R>([DroppedItem(t)], []);
      assert r.out == [DroppedItem(t)] + [];
    } else {
      var o := Sink.RunHandler(SlotOf(st), turn);
      Sink.RunOpsRaisesOnly(SlotOf(st), turn.ops, turn.throws);
      var st1 := WithSlot(st, o.slot);
      if o.thrown.Some? {
        var e := Tagged(o.thrown.value, t);
        var pre: seq<Signal<T, R>> := [Up(st.s.value, Cancel)];
        var last: seq<Signal<T, R>> := [Down(OnError(e))];
        LastMayTerminate(pre, last);
        assert HasTerminal(last) by { assert IsTerminal(last[0]); }
      } else if st1.stop {
        AfterStopFits(st, st1.(data := None), t, st1.data);
      } else {
        LastMayTerminate(r.out, []);
        assert r.out == r.out + [];
      }
    }
  }

  lemma TryOnNextFits<T, R>(st: State<T, R>, t: T, turn: Turn<T, R>)
    requires Idle(st) && st.s.Some?
    ensures Fits(st, TryOnNextStep(st, t, turn).0)
  {
    var r := TryOnNextStep(st, t, turn).0;
    if st.done {
      LastMayTerminate<T, R>([DroppedItem(t)], []);
      assert r.out == [DroppedItem(t)] + [];
    } else {
      var o := Sink.RunHandler(SlotOf(st), turn);
      Sink.RunOpsRaisesOnly(SlotOf(st), turn.ops, turn.throws);
      var st1 := WithSlot(st, o.slot);
      if o.thrown.Some? {
        var e := Tagged(o.thrown.value, t);
        var pre: seq<Signal<T, R>> := [Up(st.s.value, Cancel)];
        var last: seq<Signal<T, R>> := [Down(OnError(e))];
        LastMayTerminate(pre, last);
        assert HasTerminal(last) by { assert IsTerminal(last[0]); }
      } else if st1.stop {
        AfterStopFits(st, st1.(data := None), t, st1.data);
      } else {
        LastMayTerminate(r.out, []);
        assert r.out == r.out + [];
      }
    }
  }

  lemma UpstreamCallFits<T, R>(st: State<T, R>, op: UpstreamOp)
    requires Idle(st) && st.s.Some?
    ensures Fits(st, Step(st, [Up(st.s.value, op)]))
  {
    LastMayTerminate<T, R>([Up(st.s.value, op)], []);
    var out: seq<Signal<T, R>> := [Up(st.s.value, op)];
    assert out + [] == out;
  }

  lemma DeliverKeepsInv<T, R>(handler: T -> Turn<T, R>, st: State<T, R>, tr: seq<Signal<T, R>>, input: Input<T>)
    requires st.s.Some? && Inv(st, tr)
    ensures Inv(Deliver(handler, st, input).st, tr + Deliver(handler, st, input).out)
  {
    match input {
      case UpstreamSubscribe(sub) => OnSubscribeFits(st, sub);
      case UpstreamNext(t) => OnNextFits(st, t, handler(t));
      case UpstreamTryNext(t, _) => TryOnNextFits(st, t, handler(t));
      case UpstreamError(e) => OnErrorFits(st, e);
      case UpstreamComplete => OnCompleteFits(st);
      case DownstreamRequest(n) => UpstreamCallFits(st, Request(n));
      case DownstreamCancel => UpstreamCallFits(st, Cancel);
    }
    FitsKeepsInv(st, tr, Deliver(handler, st, input));
  }

  /** Every sequence of calls keeps the invariant. */
  lemma {:induction false} RunKeepsInv<T, R>(handler: T -> Turn<T, R>, st: State<T, R>, tr: seq<Signal<T, R>>, inputs: seq<Input<T>>)
    requires st.s.Some? && Inv(st, tr)
    ensures Inv(Run(handler, st, inputs).st, tr + Run(handler, st, inputs).out)
    decreases |inputs|
  {
    if inputs != [] {
      var first := Deliver(handler, st, inputs[0]);
      DeliverKeepsInv(handler, st, tr, inputs[0]);
      RunKeepsInv(handler, first.st, tr + first.out, inputs[1..]);
      var rest := Run(handler, first.st, inputs[1..]);
      assert tr + first.out + rest.out == tr + (first.out + rest.out);
    } else {
      assert tr + [] == tr;
    }
  }

  /** From a fresh subscriber that upstream has subscribed, any sequence of calls
      leaves a trace in which downstream got onSubscribe once, no signal after a
      terminal one (rule 1.7) and so at most one terminal signal, and `done` is
      raised exactly when that terminal signal was sent. */
  lemma Protocol<T, R>(handler: T -> Turn<T, R>, sub: Subscription, inputs: seq<Input<T>>)
    ensures var first := OnSubscribeStep(Initial<T, R>(), sub);
            var r := Run(handler, first.st, inputs);
            && RuleOneSeven(first.out + r.out)
            && Subscribes(first.out + r.out) == 1
            && (r.st.done <==> HasTerminal(first.out + r.out))
            && r.st.s == Some(sub)
  {
    var first := OnSubscribeStep(Initial<T, R>(), sub);
    OnSubscribeFits(Initial<T, R>(), sub);
    FitsKeepsInv(Initial<T, R>(), [], first);
    assert [] + first.out == first.out;
    RunKeepsInv(handler, first.st, first.out, inputs);
  }

  /** done, stop and a recorded error are never cleared by any call: once set,
      they stay set for the rest of the subscriber's life. */
  lemma DeliverNeverClears<T, R>(handler: T -> Turn<T, R>, st: State<T, R>, input: Input<T>)
    requires st.s.Some?
    ensures var r := Deliver(handler, st, input).st;
            && (st.done ==> r.done) && (st.stop ==> r.stop) && (st.error.Some? ==> r.error.Some?)
  {
    match input {
      case UpstreamNext(t) => Sink.RunOpsRaisesOnly(SlotOf(st), handler(t).ops, handler(t).throws);
      case UpstreamTryNext(t, _) => Sink.RunOpsRaisesOnly(SlotOf(st), handler(t).ops, handler(t).throws);
      case _ =>
    }
  }

  lemma {:induction false} RunNeverClears<T, R>(handler: T -> Turn<T, R>, st: State<T, R>, inputs: seq<Input<T>>)
    requires st.s.Some?
    ensures var r := Run(handler, st, inputs).st;
            && (st.done ==> r.done) && (st.stop ==> r.stop) && (st.error.Some? ==> r.error.Some?)
    decreases |inputs|
  {
    if inputs != [] {
      DeliverNeverClears(handler, st, inputs[0]);
      RunNeverClears(handler, Deliver(handler, st, inputs[0]).st, inputs[1..]);
    }
  }

  /** Rule 2.5 of the Reactive Streams specification: once a subscription is
      held, a second one is cancelled and nothing else changes. */
  lemma SecondSubscriptionCancelled<T, R>(st: State<T, R>, sub: Subscription)
    requires st.s.Some?
    ensures OnSubscribeStep(st, sub) == Step(st, [Up(sub, Cancel)])
  {
  }

  /** At most one terminal signal: after onError or onComplete, a later onError
      goes to the dropped-error hook and a later onComplete does nothing. */
  lemma TerminalOnce<T, R>(st: State<T, R>, e: Throwable<T>, e2: Throwable<T>)
    ensures var a := OnErrorStep(st, e).st;
            && a.done && OnErrorStep(a, e2) == Step(a, [DroppedError(e2)]) && OnCompleteStep(a) == Step(a, [])
    ensures var b := OnCompleteStep(st).st;
            && b.done && OnErrorStep(b, e2) == Step(b, [DroppedError(e2)]) && OnCompleteStep(b) == Step(b, [])
    ensures HasTerminal(OnErrorStep(st, e).out) <==> !st.done
    ensures HasTerminal(OnCompleteStep(st).out) <==> !st.done
  {
    if !st.done {
      assert IsTerminal(OnErrorStep(st, e).out[0]) && IsTerminal(OnCompleteStep(st).out[0]);
    }
  }

  // ---------------------------------------------------------------------------
  // What one item does

  /** Once done, an item goes to the dropped-item hook and nothing else happens;
      tryOnNext answers false. */
  lemma DroppedAfterDone<T, R>(st: State<T, R>, t: T, turn: Turn<T, R>)
    requires st.s.Some? && st.done
    ensures OnNextStep(st, t, turn) == Step(st, [DroppedItem(t)])
    ensures TryOnNextStep(st, t, turn) == (Step(st, [DroppedItem(t)]), false)
  {
  }

  /** An item the handler filters out (no sink call, no exception) makes onNext
      request exactly one more item from upstream and changes nothing; tryOnNext
      requests nothing and answers false. */
  lemma FilteredRequestsOne<T, R>(st: State<T, R>, t: T)
    requires st.s.Some? && !st.done && Idle(st)
    ensures OnNextStep(st, t, Turn([], None)) == Step(st, [Up(st.s.value, Request(1))])
    ensures TryOnNextStep(st, t, Turn([], None)) == (Step(st, []), false)
  {
  }

  /** The handler returned without calling complete or error: the value it
      recorded, if any, goes downstream and nothing else happens; with no value,
      onNext asks upstream for one more item and tryOnNext sends nothing and
      answers false. The fields are unchanged either way. */
  lemma ReturnedMapsOrRequests<T, R>(st: State<T, R>, t: T, turn: Turn<T, R>)
    requires st.s.Some? && !st.done && Idle(st)
    requires Sink.RunHandler(SlotOf(st), turn).thrown.None? && !Sink.RunHandler(SlotOf(st), turn).slot.flag
    ensures var d := Sink.RunHandler(SlotOf(st), turn).slot.data;
            && OnNextStep(st, t, turn)
               == Step(st, if d.Some? then [Down(OnNext(d.value))] else [Up(st.s.value, Request(1))])
            && TryOnNextStep(st, t, turn)
               == (Step(st, if d.Some? then [Down(OnNext(d.value))] else []), d.Some?)
  {
    Sink.RunOpsRaisesOnly(SlotOf(st), turn.ops, turn.throws);
  }

  /** When the handler returned normally with stop raised, the recorded value (if
      any) goes first, then upstream is cancelled, then exactly one terminal
      signal: onError with the recorded error tagged with the item if error(e) was
      called, onComplete otherwise. tryOnNext answers true. */
  lemma StopForwardsCancelsTerminates<T, R>(st: State<T, R>, t: T, turn: Turn<T, R>)
    requires st.s.Some? && !st.done
    requires Sink.RunHandler(SlotOf(st), turn).thrown.None? && Sink.RunHandler(SlotOf(st), turn).slot.flag
    ensures var sl := Sink.RunHandler(SlotOf(st), turn).slot;
            var last := if sl.error.Some? then OnError(Tagged(sl.error.value, t)) else OnComplete;
            && OnNextStep(st, t, turn).out == Forwarded(sl.data) + [Up(st.s.value, Cancel), Down(last)]
            && OnNextStep(st, t, turn).st.done
            && TryOnNextStep(st, t, turn) == (OnNextStep(st, t, turn), true)
  {
  }

  /** If the handler throws, the item's value is never forwarded: upstream is
      cancelled and downstream gets onError with the exception tagged with the
      item. tryOnNext answers false. */
  lemma ThrowCancelsAndErrors<T, R>(st: State<T, R>, t: T, turn: Turn<T, R>)
    requires st.s.Some? && !st.done
    requires Sink.RunHandler(SlotOf(st), turn).thrown.Some?
    ensures var x := Sink.RunHandler(SlotOf(st), turn).thrown.value;
            && OnNextStep(st, t, turn).out == [Up(st.s.value, Cancel), Down(OnError(Tagged(x, t)))]
            && OnNextStep(st, t, turn).st.done
            && TryOnNextStep(st, t, turn) == (OnNextStep(st, t, turn), false)
  {
  }

  /** tryOnNext answers true exactly when the item was consumed: stop was raised or
      a value was forwarded. */
  lemma TryOnNextAnswer<T, R>(st: State<T, R>, t: T, turn: Turn<T, R>)
    requires st.s.Some?
    ensures var o := Sink.RunHandler(SlotOf(st), turn);
            TryOnNextStep(st, t, turn).1 <==> !st.done && o.thrown.None? && (o.slot.flag || o.slot.data.Some?)
  {
  }

  /** error(e) and complete() in one turn, in either order: downstream gets
      onError, never onComplete. */
  lemma ErrorAndCompleteDeliverError<T, R>(st: State<T, R>, t: T, e: Throwable<T>)
    requires st.s.Some? && !st.done && Idle(st)
    ensures OnNextStep(st, t, Turn([Error(Some(e)), Complete], None)).out
            == [Up(st.s.value, Cancel), Down(OnError(Tagged(e, t)))]
    ensures OnNextStep(st, t, Turn([Complete, Error(Some(e))], None)).out
            == [Up(st.s.value, Cancel), Down(OnError(Tagged(e, t)))]
  {
    var sl := SlotOf(st);
    var raised := Sink.Slot(sl.data, true, Some(e));
    var ops1: seq<SinkOp<T, R>> := [Error(Some(e)), Complete];
    assert ops1[1..] == [Complete];
    assert Sink.RunOps(raised, [Complete], None) == Sink.Outcome(raised, None);
    var ops2: seq<SinkOp<T, R>> := [Complete, Error(Some(e))];
    assert ops2[1..] == [Error(Some(e))];
    assert Sink.RunOps(sl.(flag := true), [Error(Some(e))], None) == Sink.Outcome(raised, None);
  }

  /** A second next in one turn throws IllegalStateException inside the handler;
      the handler does not return normally, so the exception becomes the stream's
      error and the first value is not forwarded. */
  lemma SecondNextIsStreamError<T, R>(st: State<T, R>, t: T, a: R, b: R)
    requires st.s.Some? && !st.done && Idle(st)
    ensures OnNextStep(st, t, Turn([Next(Some(a)), Next(Some(b))], None)).out
            == [Up(st.s.value, Cancel), Down(OnError(Tagged(IllegalState, t)))]
  {
    var sl := SlotOf(st);
    var ops: seq<SinkOp<T, R>> := [Next(Some(a)), Next(Some(b))];
    assert ops[1..] == [Next(Some(b))];
    assert Sink.RunOps(sl.(data := Some(a)), [Next(Some(b))], None).thrown == Some(IllegalState);
  }

  /** complete() followed by an exception: stop is raised but done is not, so the
      exception still reaches downstream as onError. */
  lemma CompleteThenThrowDeliversError<T, R>(st: State<T, R>, t: T, x: Throwable<T>)
    requires st.s.Some? && !st.done && Idle(st)
    ensures OnNextStep(st, t, Turn([Complete], Some(x))).out
            == [Up(st.s.value, Cancel), Down(OnError(Tagged(x, t)))]
  {
    var sl := SlotOf(st);
    assert Sink.RunOps(sl.(flag := true), [], Some(x)) == Sink.Outcome(sl.(flag := true), Some(x));
  }

  /** cancel() only forwards to upstream: it raises no flag, so an item still in
      flight is handled and its value forwarded. */
  lemma CancelKeepsDelivering<T, R>(st: State<T, R>, t: T, v: R)
    requires st.s.Some? && !st.done && Idle(st)
    ensures var c := CancelStep(st);
            && c.st == st
            && OnNextStep(c.st, t, Turn([Next(Some(v))], None)).out == [Down(OnNext(v))]
  {
    var sl := SlotOf(st);
    var ops: seq<SinkOp<T, R>> := [Next(Some(v))];
    assert ops[1..] == [];
    assert Sink.RunOps(sl.(data := Some(v)), [], None) == Sink.Outcome(sl.(data := Some(v)), None);
  }

  /** A run of items the handler all filters out: one request(1) upstream per
      item, nothing downstream, and the fields unchanged. */
  lemma {:induction false} FilteredItemsRequestOneEach<T, R>(handler: T -> Turn<T, R>, st: State<T, R>, items: seq<T>)
    requires st.s.Some? && !st.done && Idle(st)
    requires forall i :: 0 <= i < |items| ==> handler(items[i]) == Turn([], None)
    ensures var r := Run(handler, st, seq(|items|, i requires 0 <= i < |items| => UpstreamNext(items[i])));
            r.st == st && r.out == seq(|items|, _ => Up(st.s.value, Request(1)))
    decreases |items|
  {
    var inputs := seq(|items|, i requires 0 <= i < |items| => UpstreamNext(items[i]));
    if items != [] {
      FilteredRequestsOne(st, items[0]);
      var tail := items[1..];
      assert inputs[1..] == seq(|tail|, i requires 0 <= i < |tail| => UpstreamNext(tail[i]));
      FilteredItemsRequestOneEach(handler, st, tail);
      assert forall i :: 0 <= i < |tail| ==> handler(tail[i]) == Turn([], None) by {
        forall i | 0 <= i < |tail| ensures handler(tail[i]) == Turn([], None) { assert tail[i] == items[i + 1]; }
      }
      var ups: seq<Signal<T, R>> := seq(|items|, _ => Up(st.s.value, Request(1)));
      assert ups == [Up(st.s.value, Request(1))] + seq(|tail|, _ => Up(st.s.value, Request(1)));
    }
  }

  // ---------------------------------------------------------------------------
  // The subscriber object

  class HandleSubscriber<T, R> {
    const handler: T -> Turn<T, R>
    var done: bool
    var stop: bool
    var error: Option<Throwable<T>>
    var data: Option<R>
    var s: Option<Subscription>
    /** Everything this subscriber has sent downstream, upstream and to the drop hooks. */
    ghost var trace: seq<Signal<T, R>>

    function Current(): State<T, R>
      reads this
    {
      State(done, stop, error, data, s)
    }

    function SinkSlot(): Sink.Slot<T, R>
      reads this
    {
      Sink.Slot(data, stop, error)
    }

    ghost predicate Valid()
      reads this
    {
      Inv(Current(), trace)
    }

    constructor(handler: T -> Turn<T, R>)
      ensures this.handler == handler && Current() == Initial() && trace == [] && Valid()
    {
      this.handler := handler;
      done, stop, error, data, s := false, false, None, None, None;
      trace := [];
    }

    method OnSubscribe(sub: Subscription)
      requires Valid()
      modifies this
      ensures var r := OnSubscribeStep(old(Current()), sub); Current() == r.st && trace == old(trace) + r.out
      ensures Valid()
    {
      ghost var st0, tr0 := Current(), trace;
      ghost var r := OnSubscribeStep(st0, sub);
      assert Inv(r.st, tr0 + r.out) by {
        OnSubscribeFits(st0, sub);
        FitsKeepsInv(st0, tr0, r);
      }
      var (ok, rejected) := Validate<T, R>(s, sub);
      trace := trace + rejected;
      if ok {
        s := Some(sub);
        trace := trace + [Down(Event.OnSubscribe)];
      }
      assert trace == tr0 + r.out;
    }

    /** SynchronousSink.next */
    method Next(v: Option<R>) returns (thrown: Option<Throwable<T>>)
      modifies this
      ensures Sink.Outcome(SinkSlot(), thrown) == Sink.RecordNext(old(SinkSlot()), v)
      ensures done == old(done) && s == old(s) && trace == old(trace)
    {
      if data.Some? {
        return Some(IllegalState);
      }
      if v.None? {
        return Some(NullPointer);
      }
      data := v;
      thrown := None;
    }

    /** SynchronousSink.complete */
    method Complete()
      modifies this
      ensures SinkSlot() == Sink.RecordComplete(old(SinkSlot()))
      ensures done == old(done) && s == old(s) && trace == old(trace)
    {
      stop := true;
    }

    /** SynchronousSink.error */
    method Error(e: Option<Throwable<T>>) returns (thrown: Option<Throwable<T>>)
      modifies this
      ensures Sink.Outcome(SinkSlot(), thrown) == Sink.RecordError(old(SinkSlot()), e)
      ensures done == old(done) && s == old(s) && trace == old(trace)
    {
      if e.None? {
        return Some(NullPointer);
      }
      error := e;
      stop := true;
      thrown := None;
    }

    method Perform(op: SinkOp<T, R>) returns (thrown: Option<Throwable<T>>)
      modifies this
      ensures Sink.Outcome(SinkSlot(), thrown) == Sink.Apply(old(SinkSlot()), op)
      ensures done == old(done) && s == old(s) && trace == old(trace)
    {
      match op
      case Next(v) => thrown := this.Next(v);
      case Complete => this.Complete(); thrown := None;
      case Error(e) => thrown := this.Error(e);
    }

    /** handler.accept(t, this): the handler's sink calls for t, in order, until
        one throws; then the handler returns or throws as its turn says. */
    method InvokeHandler(t: T) returns (thrown: Option<Throwable<T>>)
      modifies this
      ensures Sink.Outcome(SinkSlot(), thrown) == Sink.RunHandler(old(SinkSlot()), handler(t))
      ensures done == old(done) && s == old(s) && trace == old(trace)
    {
      var turn := handler(t);
      var i := 0;
      while i < |turn.ops|
        invariant 0 <= i <= |turn.ops|
        invariant Sink.RunOps(SinkSlot(), turn.ops[i..], turn.throws) == Sink.RunHandler(old(SinkSlot()), turn)
        invariant done == old(done) && s == old(s) && trace == old(trace)
      {
        assert turn.ops[i..][1..] == turn.ops[i + 1..];
        thrown := Perform(turn.ops[i]);
        if thrown.Some? {
          return;
        }
        i := i + 1;
      }
      thrown := turn.throws;
    }

    method OnNext(t: T)
      requires Valid() && s.Some?
      modifies this
      ensures var r := OnNextStep(old(Current()), t, handler(t)); Current() == r.st && trace == old(trace) + r.out
      ensures Valid()
    {
      ghost var st0, tr0 := Current(), trace;
      ghost var r := OnNextStep(st0, t, handler(t));
      assert Inv(r.st, tr0 + r.out) by {
        OnNextFits(st0, t, handler(t));
        FitsKeepsInv(st0, tr0, r);
      }
      if done {
        trace := trace + [DroppedItem(t)];
        return;
      }
      var thrown := InvokeHandler(t);
      ghost var st1 := Current();
      assert st1 == WithSlot(st0, Sink.RunHandler(SlotOf(st0), handler(t)).slot);
      if thrown.Some? {
        var (e, cancelled) := OnOperatorError<T, R>(s, thrown.value, t);
        trace := trace + cancelled;
        this.OnError(e);
        assert trace == tr0 + (cancelled + OnErrorStep(st1, e).out);
        return;
      }
      var v := data;
      data := None;
      ghost var st2 := Current();
      if v.Some? {
        trace := trace + [Down(Event.OnNext(v.value))];
      }
      assert trace == tr0 + Forwarded(v);
      if stop {
        trace := trace + [Up(s.value, UpstreamOp.Cancel)];
        if error.Some? {
          var (e, none) := OnOperatorError<T, R>(None, error.value, t);
          trace := trace + none;
          this.OnError(e);
          assert trace == tr0 + (Forwarded(v) + [Up(st2.s.value, UpstreamOp.Cancel)] + OnErrorStep(st2, e).out);
          return;
        }
        this.OnComplete();
        assert trace == tr0 + (Forwarded(v) + [Up(st2.s.value, UpstreamOp.Cancel)] + OnCompleteStep(st2).out);
      } else if v.None? {
        trace := trace + [Up(s.value, UpstreamOp.Request(1))];
      }
    }

    method TryOnNext(t: T) returns (consumed: bool)
      requires Valid() && s.Some?
      modifies this
      ensures var (r, answer) := TryOnNextStep(old(Current()), t, handler(t));
              Current() == r.st && trace == old(trace) + r.out && consumed == answer
      ensures Valid()
    {
      ghost var st0, tr0 := Current(), trace;
      ghost var r := TryOnNextStep(st0, t, handler(t)).0;
      assert Inv(r.st, tr0 + r.out) by {
        TryOnNextFits(st0, t, handler(t));
        FitsKeepsInv(st0, tr0, r);
      }
      if done {
        trace := trace + [DroppedItem(t)];
        return false;
      }
      var thrown := InvokeHandler(t);
      ghost var st1 := Current();
      assert st1 == WithSlot(st0, Sink.RunHandler(SlotOf(st0), handler(t)).slot);
      if thrown.Some? {
        var (e, cancelled) := OnOperatorError<T, R>(s, thrown.value, t);
        trace := trace + cancelled;
        this.OnError(e);
        assert trace == tr0 + (cancelled + OnErrorStep(st1, e).out);
        return false;
      }
      var v := data;
      data := None;
      ghost var st2 := Current();
      if v.Some? {
        trace := trace + [Down(Event.OnNext(v.value))];
      }
      assert trace == tr0 + Forwarded(v);
      if stop {
        trace := trace + [Up(s.value, UpstreamOp.Cancel)];
        if error.Some? {
          var (e, none) := OnOperatorError<T, R>(None, error.value, t);
          trace := trace + none;
          this.OnError(e);
          assert trace == tr0 + (Forwarded(v) + [Up(st2.s.value, UpstreamOp.Cancel)] + OnErrorStep(st2, e).out);
        } else {
          this.OnComplete();
          assert trace == tr0 + (Forwarded(v) + [Up(st2.s.value, UpstreamOp.Cancel)] + OnCompleteStep(st2).out);
        }
        return true;
      }
      return v.Some?;
    }

    /** Also called from inside onNext, where the fields may be mid-turn, so it
        keeps Valid() when it held rather than demanding it. */
    method OnError(e: Throwable<T>)
      modifies this
      ensures var r := OnErrorStep(old(Current()), e); Current() == r.st && trace == old(trace) + r.out
      ensures old(Valid()) ==> Valid()
    {
      if Valid() {
        OnErrorFits(Current(), e);
        FitsKeepsInv(Current(), trace, OnErrorStep(Current(), e));
      }
      if done {
        trace := trace + [DroppedError(e)];
        return;
      }
      done := true;
      trace := trace + [Down(Event.OnError(e))];
    }

    method OnComplete()
      modifies this
      ensures var r := OnCompleteStep(old(Current())); Current() == r.st && trace == old(trace) + r.out
      ensures old(Valid()) ==> Valid()
    {
      if Valid() {
        OnCompleteFits(Current());
        FitsKeepsInv(Current(), trace, OnCompleteStep(Current()));
      }
      if done {
        return;
      }
      done := true;
      trace := trace + [Down(Event.OnComplete)];
    }

    method Request(n: int)
      requires Valid() && s.Some?
      modifies this
      ensures var r := RequestStep(old(Current()), n); Current() == r.st && trace == old(trace) + r.out
      ensures Valid()
    {
      UpstreamCallFits(Current(), UpstreamOp.Request(n));
      FitsKeepsInv(Current(), trace, RequestStep(Current(), n));
      trace := trace + [Up(s.value, UpstreamOp.Request(n))];
    }

    method Cancel()
      requires Valid() && s.Some?
      modifies this
      ensures var r := CancelStep(old(Current())); Current() == r.st && trace == old(trace) + r.out
      ensures Valid()
    {
      UpstreamCallFits(Current(), UpstreamOp.Cancel);
      FitsKeepsInv(Current(), trace, CancelStep(Current()));
      trace := trace + [Up(s.value, UpstreamOp.Cancel)];
    }

    /** PARENT is the upstream subscription, held exactly when downstream got
        onSubscribe; TERMINATED tells whether downstream got its terminal signal;
        ERROR is the error the handler signalled, present only after termination. */
    function Scan(key: Scannable.Attr): (r: Scannable.ScanValue<T>)
      reads this
      requires Valid()
      ensures key.Parent? ==> r == Scannable.ParentValue(s) && (s.Some? <==> Subscribes(trace) == 1)
      ensures key.Terminated? ==> r == Scannable.TerminatedValue(HasTerminal(trace))
      ensures key.Error? ==> r == Scannable.ErrorValue(error) && (error.Some? ==> HasTerminal(trace))
      ensures key.Other? ==> r.Inherited?
    {
      match key
      case Parent => Scannable.ParentValue(s)
      case Terminated => Scannable.TerminatedValue(done)
      case Error => Scannable.ErrorValue(error)
      case Other => Scannable.Inherited
    }
  }
}
