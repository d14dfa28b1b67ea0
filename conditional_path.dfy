/** FluxHandle.HandleConditionalSubscriber: the handle operator's subscriber when
    the downstream subscriber is a ConditionalSubscriber. It has no `stop` flag:
    complete() and error() raise `done` itself, and after the handler returns a
    raised `done` cancels upstream and signals downstream directly. Items are
    offered with tryOnNext when upstream offers them with tryOnNext. */
module ConditionalPath {
  import opened Signals
  import opened Operators
  import Sink
  import Scannable

  /** The fields of a HandleConditionalSubscriber. */
  datatype State<T, R> = State(done: bool, error: Option<Throwable<T>>, data: Option<R>, s: Option<Subscription>)

  /** The fields after one call, and what the call sent out, in order. */
  datatype Step<T, R> = Step(st: State<T, R>, out: seq<Signal<T, R>>)

  function Initial<T, R>(): State<T, R> {
    State(false, None, None, None)
  }

  /** Here the sink's flag is `done` itself. */
  function SlotOf<T, R>(st: State<T, R>): Sink.Slot<T, R> {
    Sink.Slot(st.data, st.done, st.error)
  }

  function WithSlot<T, R>(st: State<T, R>, sl: Sink.Slot<T, R>): State<T, R> {
    st.(data := sl.data, done := sl.flag, error := sl.error)
  }

  predicate Idle<T, R>(st: State<T, R>) {
    !st.done ==> st.data.None? && st.error.None?
  }

  /** How the fields relate to the trace: a terminal signal downstream implies
      done (but done may be raised without one), rule 1.7, and one onSubscribe
      exactly when a subscription is held. */
  ghost predicate Inv<T, R>(st: State<T, R>, tr: seq<Signal<T, R>>) {
    && (HasTerminal(tr) ==> st.done)
    && RuleOneSeven(tr)
    && Subscribes(tr) == (if st.s.Some? then 1 else 0)
    && Idle(st)
  }

  function Forwarded<T, R>(v: Option<R>): seq<Signal<T, R>> {
    if v.Some? then [Down(OnNext(v.value))] else []
  }

  function Offered<T, R>(v: Option<R>): seq<Signal<T, R>> {
    if v.Some? then [Down(TryOnNext(v.value))] else []
  }

  /** onSubscribe: the first subscription is stored and announced downstream; a
      later one is cancelled and nothing else changes. */
  function OnSubscribeStep<T, R>(st: State<T, R>, sub: Subscription): (r: Step<T, R>)
    ensures r.st.s.Some? && r.st == st.(s := r.st.s)
    ensures st.s.None? ==> r.st.s == Some(sub) && r.out == [Down(OnSubscribe)]
    ensures st.s.Some? ==> r.st == st && r.out == [Up(sub, Cancel)]
  {
    var (ok, rejected) := Validate<T, R>(st.s, sub);
    if ok then Step(st.(s := Some(sub)), rejected + [Down(OnSubscribe)]) else Step(st, rejected)
  }

  /** onError: done afterwards in any case; the error goes downstream when not
      yet done, to the dropped-error hook otherwise. */
  function OnErrorStep<T, R>(st: State<T, R>, e: Throwable<T>): (r: Step<T, R>)
    ensures r.st == st.(done := true)
    ensures !st.done ==> r.out == [Down(OnError(e))]
    ensures st.done ==> r.out == [DroppedError(e)]
  {
    if st.done then Step(st, [DroppedError(e)]) else Step(st.(done := true), [Down(OnError(e))])
  }

  /** onComplete: done afterwards in any case; onComplete goes downstream only
      when not yet done. */
  function OnCompleteStep<T, R>(st: State<T, R>): (r: Step<T, R>)
    ensures r.st == st.(done := true)
    ensures !st.done ==> r.out == [Down(OnComplete)]
    ensures st.done ==> r.out == []
  {
    if st.done then Step(st, []) else Step(st.(done := true), [Down(OnComplete)])
  }

  /** The terminal signal sent straight to downstream after a turn that raised done. */
  function Terminal<T, R>(st2: State<T, R>, t: T): (r: Event<T, R>)
    ensures r.OnError? || r.OnComplete?
    ensures r.OnError? <==> st2.error.Some?
    ensures r.OnError? ==> r.error == Tagged(st2.error.value, t)
  {
    if st2.error.Some? then OnError(OnOperatorError<T, R>(None, st2.error.value, t).0) else OnComplete
  }

  /** What a handler that threw leads to: upstream cancelled and the tagged
      exception passed to this subscriber's own onError. */
  function Thrown<T, R>(st: State<T, R>, st1: State<T, R>, x: Throwable<T>, t: T): (r: Step<T, R>)
    requires st.s.Some?
    ensures r.st == st1.(done := true)
    ensures !st1.done ==> r.out == [Up(st.s.value, Cancel), Down(OnError(Tagged(x, t)))]
    ensures st1.done ==> r.out == [Up(st.s.value, Cancel), DroppedError(Tagged(x, t))]
  {
    var (e, cancelled) := OnOperatorError<T, R>(st.s, x, t);
    var r := OnErrorStep(st1, e);
    Step(r.st, cancelled + r.out)
  }

  /** onNext(t), with the handler behaving as `turn` for t. */
  function OnNextStep<T, R>(st: State<T, R>, t: T, turn: Turn<T, R>): (r: Step<T, R>)
    requires st.s.Some?
    ensures r.st.s == st.s
    ensures st.done ==> r == Step(st, [DroppedItem(t)])
    ensures var o := Sink.RunHandler(SlotOf(st), turn);
            !st.done ==> (r.st.done <==> o.thrown.Some? || o.slot.flag)
  {
    if st.done then Step(st, [DroppedItem(t)])
    else
      var o := Sink.RunHandler(SlotOf(st), turn);
      var st1 := WithSlot(st, o.slot);
      if o.thrown.Some? then Thrown(st, st1, o.thrown.value, t)
      else
        var v := st1.data;
        var st2 := st1.(data := None);
        if st2.done then Step(st2, Forwarded(v) + [Up(st.s.value, Cancel), Down(Terminal(st2, t))])
        else if v.None? then Step(st2, [Up(st.s.value, Request(1))])
        else Step(st2, Forwarded(v))
  }

  /** tryOnNext(t): the same new fields as onNext(t); accepted is what
      downstream's tryOnNext answers when it is offered a value. */
  function TryOnNextStep<T, R>(st: State<T, R>, t: T, turn: Turn<T, R>, accepted: bool): (r: (Step<T, R>, bool))
    requires st.s.Some?
    ensures r.0.st == OnNextStep(st, t, turn).st
    ensures r.1 ==> !st.done
    ensures |r.0.out| <= |OnNextStep(st, t, turn).out|
  {
    if st.done then (Step(st, [DroppedItem(t)]), false)
    else
      var o := Sink.RunHandler(SlotOf(st), turn);
      var st1 := WithSlot(st, o.slot);
      if o.thrown.Some? then (Thrown(st, st1, o.thrown.value, t), false)
      else
        var v := st1.data;
        var st2 := st1.(data := None);
        if st2.done then (Step(st2, Offered(v) + [Up(st.s.value, Cancel), Down(Terminal(st2, t))]), true)
        else (Step(st2, Offered(v)), v.Some? && accepted)
  }

  /** request(n): forwarded verbatim upstream; no field changes. */
  function RequestStep<T, R>(st: State<T, R>, n: int): (r: Step<T, R>)
    requires st.s.Some?
    ensures r.st == st && r.out == [Up(st.s.value, Request(n))]
  {
    Step(st, [Up(st.s.value, Request(n))])
  }

  /** cancel(): forwarded upstream; no field changes, in particular no flag. */
  function CancelStep<T, R>(st: State<T, R>): (r: Step<T, R>)
    requires st.s.Some?
    ensures r.st == st && r.out == [Up(st.s.value, Cancel)]
  {
    Step(st, [Up(st.s.value, Cancel)])
  }

  /** One call from upstream or downstream, once subscribed. */
  function Deliver<T, R>(handler: T -> Turn<T, R>, st: State<T, R>, input: Input<T>): (r: Step<T, R>)
    requires st.s.Some?
    ensures r.st.s == st.s
  {
    match input
    case UpstreamSubscribe(sub) => OnSubscribeStep(st, sub)
    case UpstreamNext(t) => OnNextStep(st, t, handler(t))
    case UpstreamTryNext(t, accepted) => TryOnNextStep(st, t, handler(t), accepted).0
    case UpstreamError(e) => OnErrorStep(st, e)
    case UpstreamComplete => OnCompleteStep(st)
    case DownstreamRequest(n) => RequestStep(st, n)
    case DownstreamCancel => CancelStep(st)
  }

  /** A sequence of calls, one after the other; the subscription held at the start
      is the one held at the end. */
  function Run<T, R>(handler: T -> Turn<T, R>, st: State<T, R>, inputs: seq<Input<T>>): (r: Step<T, R>)
    requires st.s.Some?
    ensures r.st.s == st.s
    decreases |inputs|
  {
    if inputs == [] then Step(st, [])
    else
      var first := Deliver(handler, st, inputs[0]);
      var rest := Run(handler, first.st, inputs[1..]);
      Step(rest.st, first.out + rest.out)
  }

  // ---------------------------------------------------------------------------
  // The invariant is kept by every call

  /** A step that keeps Inv whatever trace came before it. */
  ghost predicate Fits<T, R>(st: State<T, R>, r: Step<T, R>) {
    && Idle(r.st)
    && RuleOneSeven(r.out)
    && (st.done ==> Quiet(r.out) && r.st.done)
    && (HasTerminal(r.out) ==> r.st.done)
    && Subscribes(r.out) == (if st.s.None? && r.st.s.Some? then 1 else 0)
    && (st.s.Some? ==> r.st.s == st.s)
  }

  lemma FitsKeepsInv<T, R>(st: State<T, R>, tr: seq<Signal<T, R>>, r: Step<T, R>)
    requires Inv(st, tr) && Fits(st, r)
    ensures Inv(r.st, tr + r.out)
  {
    Extend(tr, r.out);
  }

  lemma OnSubscribeFits<T, R>(st: State<T, R>, sub: Subscription)
    requires Idle(st)
    ensures Fits(st, OnSubscribeStep(st, sub))
  {
    var r := OnSubscribeStep(st, sub);
    if st.s.None? {
      var out: seq<Signal<T, R>> := [Down(OnSubscribe)];
      assert r.out == out;
      assert out[..0] == [];
      assert Subscribes(out) == 1;
      assert !HasTerminal(out) by { assert !IsTerminal(out[0]); }
    } else {
      LastMayTerminate<T, R>([Up(sub, Cancel)], []);
      assert r.out == [Up(sub, Cancel)] + [];
    }
  }

  lemma OnErrorFits<T, R>(st: State<T, R>, e: Throwable<T>)
    requires Idle(st)
    ensures Fits(st, OnErrorStep(st, e))
  {
    var r := OnErrorStep(st, e);
    LastMayTerminate([], r.out);
    assert r.out == [] + r.out;
  }

  lemma OnCompleteFits<T, R>(st: State<T, R>)
    requires Idle(st)
    ensures Fits(st, OnCompleteStep(st))
  {
    var r := OnCompleteStep(st);
    LastMayTerminate([], r.out);
    assert r.out == [] + r.out;
  }

  lemma ThrownFits<T, R>(st: State<T, R>, st1: State<T, R>, x: Throwable<T>, t: T)
    requires !st.done && st.s.Some? && st1.s == st.s
    ensures Fits(st, Thrown(st, st1, x, t))
  {
    var r := Thrown(st, st1, x, t);
    var pre: seq<Signal<T, R>> := [Up(st.s.value, Cancel)];
    var last := OnErrorStep(st1, Tagged(x, t)).out;
    LastMayTerminate(pre, last);
  }

  /** A turn that raised done: the value, the cancel, one terminal signal. */
  lemma RaisedFits<T, R>(st: State<T, R>, st2: State<T, R>, t: T, sent: seq<Signal<T, R>>)
    requires !st.done && st.s.Some? && st2.s == st.s && st2.done
    requires |sent| <= 1 && (forall i :: 0 <= i < |sent| ==> sent[i].Down? && (sent[i].event.OnNext? || sent[i].event.TryOnNext?))
    ensures Fits(st, Step(st2, sent + [Up(st.s.value, Cancel), Down(Terminal(st2, t))]))
  {
    var last: seq<Signal<T, R>> := [Down(Terminal(st2, t))];
    LastMayTerminate(sent + [Up(st.s.value, Cancel)], last);
    assert sent + [Up(st.s.value, Cancel), Down(Terminal(st2, t))] == sent + [Up(st.s.value, Cancel)] + last;
  }

  lemma OnNextFits<T, R>(st: State<T, R>, t: T, turn: Turn<T, R>)
    requires Idle(st) && st.s.Some?
    ensures Fits(st, OnNextStep(st, t, turn))
  {
    var r := OnNextStep(st, t, turn);
    if st.done {
      LastMayTerminate<T, R>([DroppedItem(t)], []);
      assert r.out == [DroppedItem(t)] + [];
    } else {
      var o := Sink.RunHandler(SlotOf(st), turn);
      Sink.RunOpsRaisesOnly(SlotOf(st), turn.ops, turn.throws);
      var st1 := WithSlot(st, o.slot);
      if o.thrown.Some? {
        ThrownFits(st, st1, o.thrown.value, t);
      } else if st1.done {
        RaisedFits(st, st1.(data := None), t, Forwarded(st1.data));
      } else {
        LastMayTerminate(r.out, []);
        assert r.out == r.out + [];
      }
    }
  }

  lemma TryOnNextFits<T, R>(st: State<T, R>, t: T, turn: Turn<T, R>, accepted: bool)
    requires Idle(st) && st.s.Some?
    ensures Fits(st, TryOnNextStep(st, t, turn, accepted).0)
  {
    var r := TryOnNextStep(st, t, turn, accepted).0;
    if st.done {
      LastMayTerminate<T, R>([DroppedItem(t)], []);
      assert r.out == [DroppedItem(t)] + [];
    } else {
      var o := Sink.RunHandler(SlotOf(st), turn);
      Sink.RunOpsRaisesOnly(SlotOf(st), turn.ops, turn.throws);
      var st1 := WithSlot(st, o.slot);
      if o.thrown.Some? {
        ThrownFits(st, st1, o.thrown.value, t);
      } else if st1.done {
        RaisedFits(st, st1.(data := None), t, Offered(st1.data));
      } else {
        LastMayTerminate(r.out, []);
        assert r.out == r.out + [];
      }
    }
  }

  lemma UpstreamCallFits<T, R>(st: State<T, R>, op: UpstreamOp)
    requires Idle(st) && st.s.Some?
    ensures Fits(st, Step(st, [Up(st.s.value, op)]))
  {
    LastMayTerminate<T, R>([Up(st.s.value, op)], []);
    var out: seq<Signal<T, R>> := [Up(st.s.value, op)];
    assert out + [] == out;
  }

  lemma DeliverKeepsInv<T, R>(handler: T -> Turn<T, R>, st: State<T, R>, tr: seq<Signal<T, R>>, input: Input<T>)
    requires st.s.Some? && Inv(st, tr)
    ensures Inv(Deliver(handler, st, input).st, tr + Deliver(handler, st, input).out)
  {
    match input {
      case UpstreamSubscribe(sub) => OnSubscribeFits(st, sub);
      case UpstreamNext(t) => OnNextFits(st, t, handler(t));
      case UpstreamTryNext(t, accepted) => TryOnNextFits(st, t, handler(t), accepted);
      case UpstreamError(e) => OnErrorFits(st, e);
      case UpstreamComplete => OnCompleteFits(st);
      case DownstreamRequest(n) => UpstreamCallFits(st, Request(n));
      case DownstreamCancel => UpstreamCallFits(st, Cancel);
    }
    FitsKeepsInv(st, tr, Deliver(handler, st, input));
  }

  /** Every sequence of calls keeps the invariant. */
  lemma {:induction false} RunKeepsInv<T, R>(handler: T -> Turn<T, R>, st: State<T, R>, tr: seq<Signal<T, R>>, inputs: seq<Input<T>>)
    requires st.s.Some? && Inv(st, tr)
    ensures Inv(Run(handler, st, inputs).st, tr + Run(handler, st, inputs).out)
    decreases |inputs|
  {
    if inputs != [] {
      var first := Deliver(handler, st, inputs[0]);
      DeliverKeepsInv(handler, st, tr, inputs[0]);
      RunKeepsInv(handler, first.st, tr + first.out, inputs[1..]);
      var rest := Run(handler, first.st, inputs[1..]);
      assert tr + first.out + rest.out == tr + (first.out + rest.out);
    } else {
      assert tr + [] == tr;
    }
  }

  /** From a fresh subscriber that upstream has subscribed, any sequence of calls
      leaves a trace in which downstream got onSubscribe once and nothing after a
      terminal signal (rule 1.7), and in which a terminal signal implies done. */
  lemma Protocol<T, R>(handler: T -> Turn<T, R>, sub: Subscription, inputs: seq<Input<T>>)
    ensures var first := OnSubscribeStep(Initial<T, R>(), sub);
            var r := Run(handler, first.st, inputs);
            && RuleOneSeven(first.out + r.out)
            && Subscribes(first.out + r.out) == 1
            && (HasTerminal(first.out + r.out) ==> r.st.done)
            && r.st.s == Some(sub)
  {
    var first := OnSubscribeStep(Initial<T, R>(), sub);
    OnSubscribeFits(Initial<T, R>(), sub);
    FitsKeepsInv(Initial<T, R>(), [], first);
    assert [] + first.out == first.out;
    RunKeepsInv(handler, first.st, first.out, inputs);
  }

  /** done and a recorded error are never cleared by any call. */
  lemma DeliverNeverClears<T, R>(handler: T -> Turn<T, R>, st: State<T, R>, input: Input<T>)
    requires st.s.Some?
    ensures var r := Deliver(handler, st, input).st;
            && (st.done ==> r.done) && (st.error.Some? ==> r.error.Some?)
  {
    match input {
      case UpstreamNext(t) => Sink.RunOpsRaisesOnly(SlotOf(st), handler(t).ops, handler(t).throws);
      case UpstreamTryNext(t, _) => Sink.RunOpsRaisesOnly(SlotOf(st), handler(t).ops, handler(t).throws);
      case _ =>
    }
  }

  /** Rule 2.5 of the Reactive Streams specification: once a subscription is
      held, a second one is cancelled and nothing else changes. */
  lemma SecondSubscriptionCancelled<T, R>(st: State<T, R>, sub: Subscription)
    requires st.s.Some?
    ensures OnSubscribeStep(st, sub) == Step(st, [Up(sub, Cancel)])
  {
  }

  /** After onError or onComplete, a later onError goes to the dropped-error hook
      and a later onComplete does nothing. */
  lemma TerminalOnce<T, R>(st: State<T, R>, e: Throwable<T>, e2: Throwable<T>)
    ensures var a := OnErrorStep(st, e).st;
            && a.done && OnErrorStep(a, e2) == Step(a, [DroppedError(e2)]) && OnCompleteStep(a) == Step(a, [])
    ensures var b := OnCompleteStep(st).st;
            && b.done && OnErrorStep(b, e2) == Step(b, [DroppedError(e2)]) && OnCompleteStep(b) == Step(b, [])
    ensures HasTerminal(OnErrorStep(st, e).out) <==> !st.done
    ensures HasTerminal(OnCompleteStep(st).out) <==> !st.done
  {
    if !st.done {
      assert IsTerminal(OnErrorStep(st, e).out[0]) && IsTerminal(OnCompleteStep(st).out[0]);
    }
  }

  // ---------------------------------------------------------------------------
  // What one item does

  /** Once done, an item goes to the dropped-item hook and nothing else happens;
      tryOnNext answers false. */
  lemma DroppedAfterDone<T, R>(st: State<T, R>, t: T, turn: Turn<T, R>, accepted: bool)
    requires st.s.Some? && st.done
    ensures OnNextStep(st, t, turn) == Step(st, [DroppedItem(t)])
    ensures TryOnNextStep(st, t, turn, accepted) == (Step(st, [DroppedItem(t)]), false)
  {
  }

  /** An item the handler filters out makes onNext request one more item and
      tryOnNext send nothing and answer false; the fields are unchanged. */
  lemma FilteredRequestsOne<T, R>(st: State<T, R>, t: T, accepted: bool)
    requires st.s.Some? && !st.done && Idle(st)
    ensures OnNextStep(st, t, Turn([], None)) == Step(st, [Up(st.s.value, Request(1))])
    ensures TryOnNextStep(st, t, Turn([], None), accepted) == (Step(st, []), false)
  {
  }

  /** A value is offered downstream with tryOnNext and the answer is downstream's,
      as long as the turn raised neither complete nor error. */
  lemma OfferedAnswer<T, R>(st: State<T, R>, t: T, v: R, accepted: bool)
    requires st.s.Some? && !st.done && Idle(st)
    ensures TryOnNextStep(st, t, Turn([Next(Some(v))], None), accepted)
            == (Step(st, [Down(TryOnNext(v))]), accepted)
  {
    var sl := SlotOf(st);
    var ops: seq<SinkOp<T, R>> := [Next(Some(v))];
    assert ops[1..] == [];
    assert Sink.RunOps(sl.(data := Some(v)), [], None) == Sink.Outcome(sl.(data := Some(v)), None);
  }

  /** The handler returned without calling complete or error: the value it
      recorded, if any, goes downstream (onNext from onNext, tryOnNext from
      tryOnNext, whose answer is downstream's) and nothing else happens; with no
      value, onNext asks upstream for one more item and tryOnNext sends nothing
      and answers false. The fields are unchanged either way. */
  lemma ReturnedMapsOrRequests<T, R>(st: State<T, R>, t: T, turn: Turn<T, R>, accepted: bool)
    requires st.s.Some? && !st.done && Idle(st)
    requires Sink.RunHandler(SlotOf(st), turn).thrown.None? && !Sink.RunHandler(SlotOf(st), turn).slot.flag
    ensures var d := Sink.RunHandler(SlotOf(st), turn).slot.data;
            && OnNextStep(st, t, turn)
               == Step(st, if d.Some? then [Down(OnNext(d.value))] else [Up(st.s.value, Request(1))])
            && TryOnNextStep(st, t, turn, accepted)
               == (Step(st, if d.Some? then [Down(TryOnNext(d.value))] else []), d.Some? && accepted)
  {
    Sink.RunOpsRaisesOnly(SlotOf(st), turn.ops, turn.throws);
  }

  /** When the handler returned normally with done raised, the recorded value goes
      first, then upstream is cancelled, then downstream directly gets onError with
      the recorded error tagged with the item, or onComplete. tryOnNext answers
      true whatever downstream answered. */
  lemma RaisedCancelsTerminates<T, R>(st: State<T, R>, t: T, turn: Turn<T, R>, accepted: bool)
    requires st.s.Some? && !st.done
    requires Sink.RunHandler(SlotOf(st), turn).thrown.None? && Sink.RunHandler(SlotOf(st), turn).slot.flag
    ensures var sl := Sink.RunHandler(SlotOf(st), turn).slot;
            var last := if sl.error.Some? then OnError(Tagged(sl.error.value, t)) else OnComplete;
            && OnNextStep(st, t, turn).out == Forwarded(sl.data) + [Up(st.s.value, Cancel), Down(last)]
            && TryOnNextStep(st, t, turn, accepted).0.out == Offered(sl.data) + [Up(st.s.value, Cancel), Down(last)]
            && TryOnNextStep(st, t, turn, accepted).1
            && OnNextStep(st, t, turn).st.done
  {
  }

  /** A handler that throws before raising done: upstream is cancelled and
      downstream gets onError with the exception tagged with the item; no value
      is forwarded and tryOnNext answers false. */
  lemma ThrowCancelsAndErrors<T, R>(st: State<T, R>, t: T, turn: Turn<T, R>, accepted: bool)
    requires st.s.Some? && !st.done
    requires Sink.RunHandler(SlotOf(st), turn).thrown.Some? && !Sink.RunHandler(SlotOf(st), turn).slot.flag
    ensures var x := Sink.RunHandler(SlotOf(st), turn).thrown.value;
            && OnNextStep(st, t, turn).out == [Up(st.s.value, Cancel), Down(OnError(Tagged(x, t)))]
            && OnNextStep(st, t, turn).st.done
            && TryOnNextStep(st, t, turn, accepted) == (OnNextStep(st, t, turn), false)
  {
  }

  /** A handler that throws after complete() or error(e) raised done: the
      exception goes to the dropped-error hook, no value is forwarded, and
      downstream gets no terminal signal from this item. */
  lemma ThrowAfterRaiseDropsError<T, R>(st: State<T, R>, t: T, turn: Turn<T, R>, accepted: bool)
    requires st.s.Some? && !st.done
    requires Sink.RunHandler(SlotOf(st), turn).thrown.Some? && Sink.RunHandler(SlotOf(st), turn).slot.flag
    ensures var x := Sink.RunHandler(SlotOf(st), turn).thrown.value;
            && OnNextStep(st, t, turn).out == [Up(st.s.value, Cancel), DroppedError(Tagged(x, t))]
            && Quiet(OnNextStep(st, t, turn).out)
            && TryOnNextStep(st, t, turn, accepted) == (OnNextStep(st, t, turn), false)
  {
  }

  /** tryOnNext answers true exactly when the turn raised done, or when a value
      was offered and downstream accepted it. */
  lemma TryOnNextAnswer<T, R>(st: State<T, R>, t: T, turn: Turn<T, R>, accepted: bool)
    requires st.s.Some?
    ensures var o := Sink.RunHandler(SlotOf(st), turn);
            TryOnNextStep(st, t, turn, accepted).1
            <==> !st.done && o.thrown.None? && (o.slot.flag || (o.slot.data.Some? && accepted))
  {
  }

  /** complete() and then an exception: complete() has already raised done, so the
      exception goes to the dropped-error hook and downstream gets no terminal
      signal at all, although done is set and later items are dropped. */
  lemma CompleteThenThrowDropsError<T, R>(st: State<T, R>, t: T, x: Throwable<T>)
    requires st.s.Some? && !st.done && Idle(st)
    ensures var r := OnNextStep(st, t, Turn([Complete], Some(x)));
            && r.out == [Up(st.s.value, Cancel), DroppedError(Tagged(x, t))]
            && r.st.done
            && !HasTerminal(r.out)
  {
    var sl := SlotOf(st);
    assert Sink.RunOps(sl.(flag := true), [], Some(x)) == Sink.Outcome(sl.(flag := true), Some(x));
    var r := OnNextStep(st, t, Turn([Complete], Some(x)));
    assert !IsTerminal(r.out[0]) && !IsTerminal(r.out[1]);
  }

  // ---------------------------------------------------------------------------
  // The subscriber object

  class HandleConditionalSubscriber<T, R> {
    const handler: T -> Turn<T, R>
    var done: bool
    var error: Option<Throwable<T>>
    var data: Option<R>
    var s: Option<Subscription>
    /** Everything this subscriber has sent downstream, upstream and to the drop hooks. */
    ghost var trace: seq<Signal<T, R>>

    function Current(): State<T, R>
      reads this
    {
      State(done, error, data, s)
    }

    function SinkSlot(): Sink.Slot<T, R>
      reads this
    {
      Sink.Slot(data, done, error)
    }

    ghost predicate Valid()
      reads this
    {
      Inv(Current(), trace)
    }

    constructor(handler: T -> Turn<T, R>)
      ensures this.handler == handler && Current() == Initial() && trace == [] && Valid()
    {
      this.handler := handler;
      done, error, data, s := false, None, None, None;
      trace := [];
    }

    method OnSubscribe(sub: Subscription)
      requires Valid()
      modifies this
      ensures var r := OnSubscribeStep(old(Current()), sub); Current() == r.st && trace == old(trace) + r.out
      ensures Valid()
    {
      ghost var st0, tr0 := Current(), trace;
      ghost var r := OnSubscribeStep(st0, sub);
      assert Inv(r.st, tr0 + r.out) by {
        OnSubscribeFits(st0, sub);
        FitsKeepsInv(st0, tr0, r);
      }
      var (ok, rejected) := Validate<T, R>(s, sub);
      trace := trace + rejected;
      if ok {
        s := Some(sub);
        trace := trace + [Down(Event.OnSubscribe)];
      }
      assert trace == tr0 + r.out;
    }

    /** SynchronousSink.next */
    method Next(v: Option<R>) returns (thrown: Option<Throwable<T>>)
      modifies this
      ensures Sink.Outcome(SinkSlot(), thrown) == Sink.RecordNext(old(SinkSlot()), v)
      ensures s == old(s) && trace == old(trace)
    {
      if data.Some? {
        return Some(IllegalState);
      }
      if v.None? {
        return Some(NullPointer);
      }
      data := v;
      thrown := None;
    }

    /** SynchronousSink.complete: raises done itself. */
    method Complete()
      modifies this
      ensures SinkSlot() == Sink.RecordComplete(old(SinkSlot()))
      ensures s == old(s) && trace == old(trace)
    {
      done := true;
    }

    /** SynchronousSink.error: records e and raises done itself. */
    method Error(e: Option<Throwable<T>>) returns (thrown: Option<Throwable<T>>)
      modifies this
      ensures Sink.Outcome(SinkSlot(), thrown) == Sink.RecordError(old(SinkSlot()), e)
      ensures s == old(s) && trace == old(trace)
    {
      if e.None? {
        return Some(NullPointer);
      }
      error := e;
      done := true;
      thrown := None;
    }

    method Perform(op: SinkOp<T, R>) returns (thrown: Option<Throwable<T>>)
      modifies this
      ensures Sink.Outcome(SinkSlot(), thrown) == Sink.Apply(old(SinkSlot()), op)
      ensures s == old(s) && trace == old(trace)
    {
      match op
      case Next(v) => thrown := this.Next(v);
      case Complete => this.Complete(); thrown := None;
      case Error(e) => thrown := this.Error(e);
    }

    /** handler.accept(t, this): the handler's sink calls for t, in order, until
        one throws; then the handler returns or throws as its turn says. */
    method InvokeHandler(t: T) returns (thrown: Option<Throwable<T>>)
      modifies this
      ensures Sink.Outcome(SinkSlot(), thrown) == Sink.RunHandler(old(SinkSlot()), handler(t))
      ensures s == old(s) && trace == old(trace)
    {
      var turn := handler(t);
      var i := 0;
      while i < |turn.ops|
        invariant 0 <= i <= |turn.ops|
        invariant Sink.RunOps(SinkSlot(), turn.ops[i..], turn.throws) == Sink.RunHandler(old(SinkSlot()), turn)
        invariant s == old(s) && trace == old(trace)
      {
        assert turn.ops[i..][1..] == turn.ops[i + 1..];
        thrown := Perform(turn.ops[i]);
        if thrown.Some? {
          return;
        }
        i := i + 1;
      }
      thrown := turn.throws;
    }

    method OnNext(t: T)
      requires Valid() && s.Some?
      modifies this
      ensures var r := OnNextStep(old(Current()), t, handler(t)); Current() == r.st && trace == old(trace) + r.out
      ensures Valid()
    {
      ghost var st0, tr0 := Current(), trace;
      ghost var r := OnNextStep(st0, t, handler(t));
      assert Inv(r.st, tr0 + r.out) by {
        OnNextFits(st0, t, handler(t));
        FitsKeepsInv(st0, tr0, r);
      }
      if done {
        trace := trace + [DroppedItem(t)];
        return;
      }
      var thrown := InvokeHandler(t);
      ghost var st1 := Current();
      assert st1 == WithSlot(st0, Sink.RunHandler(SlotOf(st0), handler(t)).slot);
      if thrown.Some? {
        var (e, cancelled) := OnOperatorError<T, R>(s, thrown.value, t);
        trace := trace + cancelled;
        this.OnError(e);
        assert trace == tr0 + (cancelled + OnErrorStep(st1, e).out);
        return;
      }
      var v := data;
      data := None;
      ghost var st2 := Current();
      if v.Some? {
        trace := trace + [Down(Event.OnNext(v.value))];
      }
      assert trace == tr0 + Forwarded(v);
      if done {
        trace := trace + [Up(s.value, UpstreamOp.Cancel)];
        if error.Some? {
          var (e, none) := OnOperatorError<T, R>(None, error.value, t);
          trace := trace + none + [Down(Event.OnError(e))];
          assert trace == tr0 + (Forwarded(v) + [Up(st0.s.value, UpstreamOp.Cancel), Down(Terminal(st2, t))]);
          return;
        }
        trace := trace + [Down(Event.OnComplete)];
        assert trace == tr0 + (Forwarded(v) + [Up(st0.s.value, UpstreamOp.Cancel), Down(Terminal(st2, t))]);
      } else if v.None? {
        trace := trace + [Up(s.value, UpstreamOp.Request(1))];
      }
    }

    /** accepted: what downstream's tryOnNext answers if it is offered a value. */
    method TryOnNext(t: T, accepted: bool) returns (consumed: bool)
      requires Valid() && s.Some?
      modifies this
      ensures var (r, answer) := TryOnNextStep(old(Current()), t, handler(t), accepted);
              Current() == r.st && trace == old(trace) + r.out && consumed == answer
      ensures Valid()
    {
      ghost var st0, tr0 := Current(), trace;
      ghost var r := TryOnNextStep(st0, t, handler(t), accepted).0;
      assert Inv(r.st, tr0 + r.out) by {
        TryOnNextFits(st0, t, handler(t), accepted);
        FitsKeepsInv(st0, tr0, r);
      }
      if done {
        trace := trace + [DroppedItem(t)];
        return false;
      }
      var thrown := InvokeHandler(t);
      ghost var st1 := Current();
      assert st1 == WithSlot(st0, Sink.RunHandler(SlotOf(st0), handler(t)).slot);
      if thrown.Some? {
        var (e, cancelled) := OnOperatorError<T, R>(s, thrown.value, t);
        trace := trace + cancelled;
        this.OnError(e);
        assert trace == tr0 + (cancelled + OnErrorStep(st1, e).out);
        return false;
      }
      var v := data;
      var emit := false;
      data := None;
      ghost var st2 := Current();
      if v.Some? {
        trace := trace + [Down(Event.TryOnNext(v.value))];
        emit := accepted;
      }
      assert trace == tr0 + Offered(v);
      if done {
        trace := trace + [Up(s.value, UpstreamOp.Cancel)];
        if error.Some? {
          var (e, none) := OnOperatorError<T, R>(None, error.value, t);
          trace := trace + none + [Down(Event.OnError(e))];
        } else {
          trace := trace + [Down(Event.OnComplete)];
        }
        assert trace == tr0 + (Offered(v) + [Up(st0.s.value, UpstreamOp.Cancel), Down(Terminal(st2, t))]);
        return true;
      }
      return emit;
    }

    /** Also called from inside onNext, where the fields may be mid-turn, so it
        keeps Valid() when it held rather than demanding it. */
    method OnError(e: Throwable<T>)
      modifies this
      ensures var r := OnErrorStep(old(Current()), e); Current() == r.st && trace == old(trace) + r.out
      ensures old(Valid()) ==> Valid()
    {
      if Valid() {
        OnErrorFits(Current(), e);
        FitsKeepsInv(Current(), trace, OnErrorStep(Current(), e));
      }
      if done {
        trace := trace + [DroppedError(e)];
        return;
      }
      done := true;
      trace := trace + [Down(Event.OnError(e))];
    }

    method OnComplete()
      requires Valid()
      modifies this
      ensures var r := OnCompleteStep(old(Current())); Current() == r.st && trace == old(trace) + r.out
      ensures Valid()
    {
      OnCompleteFits(Current());
      FitsKeepsInv(Current(), trace, OnCompleteStep(Current()));
      if done {
        return;
      }
      done := true;
      trace := trace + [Down(Event.OnComplete)];
    }

    method Request(n: int)
      requires Valid() && s.Some?
      modifies this
      ensures var r := RequestStep(old(Current()), n); Current() == r.st && trace == old(trace) + r.out
      ensures Valid()
    {
      UpstreamCallFits(Current(), UpstreamOp.Request(n));
      FitsKeepsInv(Current(), trace, RequestStep(Current(), n));
      trace := trace + [Up(s.value, UpstreamOp.Request(n))];
    }

    method Cancel()
      requires Valid() && s.Some?
      modifies this
      ensures var r := CancelStep(old(Current())); Current() == r.st && trace == old(trace) + r.out
      ensures Valid()
    {
      UpstreamCallFits(Current(), UpstreamOp.Cancel);
      FitsKeepsInv(Current(), trace, CancelStep(Current()));
      trace := trace + [Up(s.value, UpstreamOp.Cancel)];
    }

    /** PARENT is the upstream subscription, held exactly when downstream got
        onSubscribe; TERMINATED is done, which a terminal signal downstream
        implies (here done can also be raised without one); ERROR is the
        recorded error, present only once done. */
    function Scan(key: Scannable.Attr): (r: Scannable.ScanValue<T>)
      reads this
      requires Valid()
      ensures key.Parent? ==> r == Scannable.ParentValue(s) && (s.Some? <==> Subscribes(trace) == 1)
      ensures key.Terminated? ==> r == Scannable.TerminatedValue(done) && (HasTerminal(trace) ==> done)
      ensures key.Error? ==> r == Scannable.ErrorValue(error) && (error.Some? ==> done)
      ensures key.Other? ==> r.Inherited?
    {
      match key
      case Parent => Scannable.ParentValue(s)
      case Terminated => Scannable.TerminatedValue(done)
      case Error => Scannable.ErrorValue(error)
      case Other => Scannable.Inherited
    }
  }
}
