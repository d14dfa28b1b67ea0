# The `handle` operator of reactor-core, in Dafny

`Flux.handle(handler)` is a per-item map-and-filter stage. It calls the handler
once for each upstream item. The handler also gets a `SynchronousSink` on which it
may record at most one value (`next`) and may ask the stream to stop (`complete` or
`error`). Once the handler returns, the subscriber does one of three things:

- it forwards the recorded value downstream;
- it asks upstream for one more item (the item was filtered out);
- it cancels upstream and sends one terminal signal.

`FluxHandle.subscribe` picks one of two subscribers. `HandleConditionalSubscriber` is
used when the downstream subscriber is a `Fuseable.ConditionalSubscriber`;
`HandleSubscriber` is used otherwise. Each subscriber is also the sink its handler
writes to.

The model has six modules:

- `Signals` holds the values that cross the operator's boundary. These are errors,
  sink calls, a handler's turn, downstream events, upstream requests and
  cancellations, and the two drop hooks. The module also states rule 1.7 of the
  Reactive Streams specification (no signal after a terminal one) over a trace of
  those signals. `Scannable` holds the attributes that `scan` answers.
- `Operators` holds the two `Operators` helpers the operator depends on:
  `onOperatorError` and `validate`.
- `Sink` holds what the sink methods `next`, `complete` and `error` do to the
  per-turn fields. It also holds what a whole handler turn does: the sink calls in
  order, cut short by the first one that throws.
- `StandardPath` and `ConditionalPath` each model one subscriber. Each is a class with
  the fields of its Java counterpart: `done`, `stop` (standard path only), `error`,
  `data` and `s`.
  - A ghost `trace` records everything the subscriber sends, in order. That means
    downstream calls, upstream `request`/`cancel`, and items and errors handed to the
    drop hooks.
  - Every method is proved against a pure step function of the old fields
    (`OnNextStep`, `TryOnNextStep`, …). The method's `ensures` ties the new fields to
    that step's state, and the new trace to the old one plus that step's output.
  - The operator's promises are proved as lemmas about those functions and about
    `Run`, which applies a whole sequence of calls.
  - An invariant (`Valid`) relates the fields to the trace. Every call from upstream
    or downstream (`onSubscribe`, `onNext`, `tryOnNext`, `onError`, `onComplete`,
    `request`, `cancel`) keeps it. The sink methods (`next`, `complete`, `error`) run
    in the middle of a handler turn and do not: a raised `stop` with `done` still
    false is a state that only exists inside `onNext` or `tryOnNext`.
- `HandleOperator` holds the operator itself: construction, subscribe dispatch, and
  three concrete streams of `1, 2, 3, 4, 5`.

A handler is a function from an item to a `Turn`. A turn is the list of sink calls
the handler makes for that item, plus the exception it throws at the end, if any.

## Behaviour worth knowing

- **A second `next` in one turn.** The sink allows at most one `next` per handler
  call. A second call makes `next` throw `IllegalStateException` inside
  `handler.accept`, and the surrounding `catch` turns it into `onError` downstream,
  like any other handler exception (`StandardPath.SecondNextIsStreamError`). A `null`
  passed to `next` or `error` takes the same route, as a `NullPointerException`.
- **`cancel()`.** It only forwards to the upstream subscription and raises no flag.
  An item that arrives after it is still handled and its value still forwarded
  (`StandardPath.CancelKeepsDelivering`). It is not dropped.
- **`complete()` then throw, in `HandleConditionalSubscriber`.**
  - `complete()` and `error(e)` raise `done` itself there.
  - When the handler then throws, `onError` sees `done` and hands the exception to
    the dropped-error hook.
  - So downstream gets no terminal signal at all for that stream, although the
    subscriber counts as terminated.
  - The model keeps this behaviour (`ConditionalPath.CompleteThenThrowDropsError`,
    `ConditionalPath.ThrowAfterRaiseDropsError`). As a result, that subscriber's
    invariant only says that a terminal signal implies `done`, not the converse.
  - `HandleSubscriber` delivers the error in the same situation
    (`StandardPath.CompleteThenThrowDeliversError`).
- **`request(n)`.** It forwards any `n` verbatim; there is no check that `n` is
  positive.

## Model

| member | source | states |
|---|---|---|
| HandleOperator.NewFluxHandle | src/main/java/reactor/core/publisher/FluxHandle.java:36-39 | construction fails with a NullPointerException exactly when the handler is null, and otherwise keeps the given handler |
| HandleOperator.Subscribe | src/main/java/reactor/core/publisher/FluxHandle.java:43-50 | a HandleConditionalSubscriber exactly when downstream is a ConditionalSubscriber, else a HandleSubscriber; either is fresh, holds the operator's handler and starts with no subscription and an empty trace |
| Sink.RecordNext | src/main/java/reactor/core/publisher/FluxHandle.java:178-183 | next succeeds exactly when no value is recorded yet and the value is non-null; on a throw (IllegalState for a second value, NullPointer for null) nothing changes; on success only the value is written |
| Sink.RecordError | src/main/java/reactor/core/publisher/FluxHandle.java:172-175 | error(e) succeeds exactly when e is non-null, then records e and raises the flag; a null e throws and changes nothing |
| Sink.RecordComplete | src/main/java/reactor/core/publisher/FluxHandle.java:167-169 | complete() raises the flag (stop, or done in the conditional subscriber) and leaves the value and the error as they were |
| Sink.RunOps | src/main/java/reactor/core/publisher/FluxHandle.java:87-89 | the handler's sink calls in order, ending at the first that throws; the turn ends with the handler's own exception or with IllegalState/NullPointer from a sink call, and a handler that throws never returns normally |
| Sink.RunHandler | src/main/java/reactor/core/publisher/FluxHandle.java:87-89 | handler.accept(t, this) for one item: the same, for a whole turn |
| Operators.OnOperatorError | src/main/java/reactor/core/publisher/FluxHandle.java:91 | the error comes back tagged with the item that caused it; the given subscription, when there is one, is cancelled, and nothing is sent when it is null (as at line 102) |
| Operators.Validate | src/main/java/reactor/core/publisher/FluxHandle.java:73 | a new subscription is accepted exactly when none is held; a refused one is cancelled and nothing else is sent |
| Sink.RunOpsThrowsUnlessLegal | src/main/java/reactor/core/publisher/FluxHandle.java:178-183 | a turn's sink calls all return normally exactly when none passes null and at most one value is recorded; otherwise the turn ends in IllegalState or NullPointer |
| Sink.RunOpsKeepsValue | src/main/java/reactor/core/publisher/FluxHandle.java:178-183 | once a value is recorded, no later call in the turn replaces it, even when the turn throws |
| Sink.RunOpsRaisesOnly | src/main/java/reactor/core/publisher/FluxHandle.java:167-175 | complete and error never lower the flag nor clear a recorded error, and an error is recorded only with the flag raised |
| Sink.RunOpsLegal | src/main/java/reactor/core/publisher/FluxHandle.java:167-183 | a legal turn ends with the value passed to next, the flag raised exactly when complete or error was called, and the error of the last error call |
| Sink.SecondNextThrows | src/main/java/reactor/core/publisher/FluxHandle.java:178-183 | a turn that calls next twice never returns normally |
| Sink.ErrorWinsOverComplete | src/main/java/reactor/core/publisher/FluxHandle.java:167-175 | a legal turn that calls error at all ends with an error recorded and the flag raised, whatever the order of complete and error |
| Signals.SingleTerminal | src/main/java/reactor/core/publisher/FluxHandle.java:145-164 | a trace that obeys rule 1.7 holds at most one terminal signal |
| StandardPath.OnSubscribeStep | src/main/java/reactor/core/publisher/FluxHandle.java:72-77 | only s may change: the first subscription is stored and onSubscribe sent downstream; a later one is cancelled and nothing else changes |
| StandardPath.OnErrorStep | src/main/java/reactor/core/publisher/FluxHandle.java:145-154 | done is set and nothing else changes; the error goes downstream when not yet done, to the dropped-error hook otherwise |
| StandardPath.OnCompleteStep | src/main/java/reactor/core/publisher/FluxHandle.java:157-164 | done is set and nothing else changes; onComplete goes downstream only when not yet done |
| StandardPath.AfterStop | src/main/java/reactor/core/publisher/FluxHandle.java:99-106 | after a turn that raised stop: what was forwarded, then cancel upstream, then onError with the recorded error tagged with the item, or onComplete; done is set |
| StandardPath.OnNextStep | src/main/java/reactor/core/publisher/FluxHandle.java:81-110 | keeps s; once done, only drops the item; otherwise done is raised exactly when the handler threw or called complete or error |
| StandardPath.TryOnNextStep | src/main/java/reactor/core/publisher/FluxHandle.java:113-142 | the same new fields and signals as onNext, except that a filtered item sends nothing instead of request(1) and answers false |
| StandardPath.RequestStep | src/main/java/reactor/core/publisher/FluxHandle.java:204-206 | request(n) goes upstream with n unchanged; no field changes |
| StandardPath.CancelStep | src/main/java/reactor/core/publisher/FluxHandle.java:209-211 | cancel goes upstream; no field changes, in particular no flag is raised |
| StandardPath.Deliver | src/main/java/reactor/core/publisher/FluxHandle.java:72-211 | one call on a subscribed HandleSubscriber, dispatched to the matching step; the held subscription never changes |
| StandardPath.Run | src/main/java/reactor/core/publisher/FluxHandle.java:72-211 | a sequence of calls applied in order; the held subscription never changes |
| StandardPath.RunKeepsInv | src/main/java/reactor/core/publisher/FluxHandle.java:72-211 | every sequence of calls keeps the invariant: done exactly when downstream got its terminal signal, rule 1.7, one onSubscribe exactly when a subscription is held, and no value, stop or error left over between calls before termination |
| StandardPath.Protocol | src/main/java/reactor/core/publisher/FluxHandle.java:72-164 | from a freshly subscribed HandleSubscriber, any run sends onSubscribe once, nothing after a terminal signal, and raises done exactly when that terminal signal went out |
| StandardPath.DeliverNeverClears | src/main/java/reactor/core/publisher/FluxHandle.java:81-175 | no call clears done, stop or a recorded error |
| StandardPath.RunNeverClears | src/main/java/reactor/core/publisher/FluxHandle.java:81-175 | done, stop and a recorded error stay set for the rest of any run |
| StandardPath.SecondSubscriptionCancelled | src/main/java/reactor/core/publisher/FluxHandle.java:72-77 | with a subscription held, onSubscribe cancels the new one and changes nothing else (rule 2.5) |
| StandardPath.TerminalOnce | src/main/java/reactor/core/publisher/FluxHandle.java:145-164 | onError and onComplete send a terminal signal exactly when not yet done, and set done; afterwards onError goes to the dropped-error hook and onComplete does nothing |
| StandardPath.DroppedAfterDone | src/main/java/reactor/core/publisher/FluxHandle.java:81-85 | once done, onNext and tryOnNext hand the item to the dropped-item hook, change nothing, send nothing else, and tryOnNext answers false |
| StandardPath.FilteredRequestsOne | src/main/java/reactor/core/publisher/FluxHandle.java:107-109 | a filtered item makes onNext request exactly one item upstream, and makes tryOnNext send nothing and answer false; the fields are unchanged |
| StandardPath.FilteredItemsRequestOneEach | src/main/java/reactor/core/publisher/FluxHandle.java:81-110 | a run of filtered items sends exactly one request(1) per item and nothing else |
| StandardPath.ReturnedMapsOrRequests | src/main/java/reactor/core/publisher/FluxHandle.java:94-109 | a handler that returned without complete or error: the recorded value alone goes downstream, or, with none, onNext requests one item and tryOnNext sends nothing and answers false; fields unchanged |
| StandardPath.StopForwardsCancelsTerminates | src/main/java/reactor/core/publisher/FluxHandle.java:94-106 | after a turn that called complete or error, the value goes first, then upstream is cancelled, then exactly one terminal signal: onError with the recorded error tagged with the item, or onComplete; tryOnNext answers true |
| StandardPath.ThrowCancelsAndErrors | src/main/java/reactor/core/publisher/FluxHandle.java:87-93 | a handler that throws gets upstream cancelled and onError with the exception tagged with the item; no value is forwarded and tryOnNext answers false |
| StandardPath.TryOnNextAnswer | src/main/java/reactor/core/publisher/FluxHandle.java:113-142 | tryOnNext answers true exactly when not done, the handler returned, and stop was raised or a value recorded |
| StandardPath.ErrorAndCompleteDeliverError | src/main/java/reactor/core/publisher/FluxHandle.java:96-106 | error and complete in one turn, in either order, end in onError and never onComplete |
| StandardPath.SecondNextIsStreamError | src/main/java/reactor/core/publisher/FluxHandle.java:87-93 | two next calls in one turn end in upstream cancelled and onError(IllegalState) tagged with the item; the first value is not forwarded |
| StandardPath.CompleteThenThrowDeliversError | src/main/java/reactor/core/publisher/FluxHandle.java:87-93 | complete then an exception still delivers onError, since stop is not done |
| StandardPath.CancelKeepsDelivering | src/main/java/reactor/core/publisher/FluxHandle.java:204-211 | cancel only forwards to upstream and changes no field, so a later item's value is still forwarded |
| StandardPath.HandleSubscriber.constructor | src/main/java/reactor/core/publisher/FluxHandle.java:66-69 | starts with all fields cleared, the given handler and an empty trace |
| StandardPath.HandleSubscriber.OnSubscribe | src/main/java/reactor/core/publisher/FluxHandle.java:72-77 | fields and trace follow OnSubscribeStep; keeps the invariant |
| StandardPath.HandleSubscriber.Next | src/main/java/reactor/core/publisher/FluxHandle.java:178-183 | sink fields and exception as RecordNext says; nothing else changes |
| StandardPath.HandleSubscriber.Complete | src/main/java/reactor/core/publisher/FluxHandle.java:167-169 | raises stop; nothing else changes |
| StandardPath.HandleSubscriber.Error | src/main/java/reactor/core/publisher/FluxHandle.java:172-175 | sink fields and exception as RecordError says; nothing else changes |
| StandardPath.HandleSubscriber.Perform | src/main/java/reactor/core/publisher/FluxHandle.java:167-183 | one sink call by the handler: fields and exception as the matching sink operation says; done, s and the trace unchanged |
| StandardPath.HandleSubscriber.InvokeHandler | src/main/java/reactor/core/publisher/FluxHandle.java:87-89 | performs the turn's sink calls in order until one throws; sink fields and exception as RunHandler says |
| StandardPath.HandleSubscriber.OnNext | src/main/java/reactor/core/publisher/FluxHandle.java:81-110 | fields and trace follow OnNextStep; keeps the invariant |
| StandardPath.HandleSubscriber.TryOnNext | src/main/java/reactor/core/publisher/FluxHandle.java:113-142 | fields, trace and answer follow TryOnNextStep; keeps the invariant |
| StandardPath.HandleSubscriber.OnError | src/main/java/reactor/core/publisher/FluxHandle.java:145-154 | fields and trace follow OnErrorStep; keeps the invariant when it held |
| StandardPath.HandleSubscriber.OnComplete | src/main/java/reactor/core/publisher/FluxHandle.java:157-164 | fields and trace follow OnCompleteStep; keeps the invariant when it held |
| StandardPath.HandleSubscriber.Request | src/main/java/reactor/core/publisher/FluxHandle.java:204-206 | forwards request(n) to the subscription verbatim; fields unchanged |
| StandardPath.HandleSubscriber.Cancel | src/main/java/reactor/core/publisher/FluxHandle.java:209-211 | forwards cancel to the subscription; fields unchanged |
| StandardPath.HandleSubscriber.Scan | src/main/java/reactor/core/publisher/FluxHandle.java:186-196 | PARENT is s, held exactly when downstream got onSubscribe; TERMINATED is whether downstream got its terminal signal; ERROR is the recorded error, present only after termination; other keys are inherited |
| ConditionalPath.OnSubscribeStep | src/main/java/reactor/core/publisher/FluxHandle.java:232-238 | only s may change: the first subscription is stored and onSubscribe sent downstream; a later one is cancelled |
| ConditionalPath.OnErrorStep | src/main/java/reactor/core/publisher/FluxHandle.java:306-315 | done is set and nothing else changes; the error goes downstream when not yet done, to the dropped-error hook otherwise |
| ConditionalPath.OnCompleteStep | src/main/java/reactor/core/publisher/FluxHandle.java:318-325 | done is set and nothing else changes; onComplete goes downstream only when not yet done |
| ConditionalPath.Terminal | src/main/java/reactor/core/publisher/FluxHandle.java:259-265 | the terminal signal sent directly after a turn that raised done: onError with the recorded error tagged with the item exactly when an error was recorded, else onComplete |
| ConditionalPath.Thrown | src/main/java/reactor/core/publisher/FluxHandle.java:250-252 | a handler exception: upstream cancelled, then the tagged exception goes downstream if done was not yet raised, to the dropped-error hook if it was; done is set |
| ConditionalPath.OnNextStep | src/main/java/reactor/core/publisher/FluxHandle.java:241-270 | keeps s; once done, only drops the item; otherwise done is raised exactly when the handler threw or called complete or error |
| ConditionalPath.TryOnNextStep | src/main/java/reactor/core/publisher/FluxHandle.java:273-303 | the same new fields as onNext, never more signals, and true only when not already done |
| ConditionalPath.RequestStep | src/main/java/reactor/core/publisher/FluxHandle.java:352-354 | request(n) goes upstream with n unchanged; no field changes |
| ConditionalPath.CancelStep | src/main/java/reactor/core/publisher/FluxHandle.java:357-359 | cancel goes upstream; no field changes |
| ConditionalPath.Deliver | src/main/java/reactor/core/publisher/FluxHandle.java:232-359 | one call on a subscribed HandleConditionalSubscriber; the held subscription never changes |
| ConditionalPath.Run | src/main/java/reactor/core/publisher/FluxHandle.java:232-359 | a sequence of calls applied in order; the held subscription never changes |
| ConditionalPath.RunKeepsInv | src/main/java/reactor/core/publisher/FluxHandle.java:232-359 | every sequence of calls keeps the invariant: a terminal signal downstream implies done, rule 1.7, one onSubscribe exactly when a subscription is held, and no value or error left over before done |
| ConditionalPath.Protocol | src/main/java/reactor/core/publisher/FluxHandle.java:232-325 | from a freshly subscribed HandleConditionalSubscriber, any run sends onSubscribe once and nothing after a terminal signal, and a terminal signal implies done |
| ConditionalPath.DeliverNeverClears | src/main/java/reactor/core/publisher/FluxHandle.java:241-341 | no call clears done or a recorded error |
| ConditionalPath.SecondSubscriptionCancelled | src/main/java/reactor/core/publisher/FluxHandle.java:232-238 | with a subscription held, onSubscribe cancels the new one and changes nothing else (rule 2.5) |
| ConditionalPath.TerminalOnce | src/main/java/reactor/core/publisher/FluxHandle.java:306-325 | onError and onComplete send a terminal signal exactly when not yet done; afterwards onError goes to the dropped-error hook and onComplete does nothing |
| ConditionalPath.DroppedAfterDone | src/main/java/reactor/core/publisher/FluxHandle.java:241-245 | once done, onNext and tryOnNext hand the item to the dropped-item hook, change nothing, and tryOnNext answers false |
| ConditionalPath.FilteredRequestsOne | src/main/java/reactor/core/publisher/FluxHandle.java:267-269 | a filtered item makes onNext request exactly one item upstream, and makes tryOnNext send nothing and answer false |
| ConditionalPath.ReturnedMapsOrRequests | src/main/java/reactor/core/publisher/FluxHandle.java:254-269 | a handler that returned without complete or error: the recorded value alone goes downstream (tryOnNext offers it and returns downstream's answer), or, with none, onNext requests one item and tryOnNext sends nothing and answers false; fields unchanged |
| ConditionalPath.OfferedAnswer | src/main/java/reactor/core/publisher/FluxHandle.java:286-302 | a recorded value is offered downstream with tryOnNext, and the answer is downstream's |
| ConditionalPath.RaisedCancelsTerminates | src/main/java/reactor/core/publisher/FluxHandle.java:254-266 | after a turn that called complete or error, the value goes first, then upstream is cancelled, then onError with the recorded error tagged with the item, or onComplete, sent directly downstream; tryOnNext answers true |
| ConditionalPath.ThrowCancelsAndErrors | src/main/java/reactor/core/publisher/FluxHandle.java:247-253 | a handler that throws before raising done gets upstream cancelled and onError with the tagged exception; tryOnNext answers false |
| ConditionalPath.ThrowAfterRaiseDropsError | src/main/java/reactor/core/publisher/FluxHandle.java:279-285 | a handler that throws after complete or error sends the tagged exception to the dropped-error hook and nothing downstream; tryOnNext answers false |
| ConditionalPath.TryOnNextAnswer | src/main/java/reactor/core/publisher/FluxHandle.java:273-303 | tryOnNext answers true exactly when not done, the handler returned, and done was raised or a value was offered and accepted |
| ConditionalPath.CompleteThenThrowDropsError | src/main/java/reactor/core/publisher/FluxHandle.java:306-309 | complete then an exception leaves done set and no terminal signal downstream, with the exception dropped |
| ConditionalPath.HandleConditionalSubscriber.constructor | src/main/java/reactor/core/publisher/FluxHandle.java:226-229 | starts with all fields cleared, the given handler and an empty trace |
| ConditionalPath.HandleConditionalSubscriber.OnSubscribe | src/main/java/reactor/core/publisher/FluxHandle.java:232-238 | fields and trace follow OnSubscribeStep; keeps the invariant |
| ConditionalPath.HandleConditionalSubscriber.Next | src/main/java/reactor/core/publisher/FluxHandle.java:344-349 | sink fields and exception as RecordNext says |
| ConditionalPath.HandleConditionalSubscriber.Complete | src/main/java/reactor/core/publisher/FluxHandle.java:333-335 | raises done; nothing else changes |
| ConditionalPath.HandleConditionalSubscriber.Error | src/main/java/reactor/core/publisher/FluxHandle.java:338-341 | sink fields and exception as RecordError says, with done as the flag |
| ConditionalPath.HandleConditionalSubscriber.Perform | src/main/java/reactor/core/publisher/FluxHandle.java:333-349 | one sink call by the handler: fields and exception as the matching sink operation says, with done as the flag; s and the trace unchanged |
| ConditionalPath.HandleConditionalSubscriber.InvokeHandler | src/main/java/reactor/core/publisher/FluxHandle.java:247-249 | performs the turn's sink calls in order until one throws; sink fields and exception as RunHandler says |
| ConditionalPath.HandleConditionalSubscriber.OnNext | src/main/java/reactor/core/publisher/FluxHandle.java:241-270 | fields and trace follow OnNextStep; keeps the invariant |
| ConditionalPath.HandleConditionalSubscriber.TryOnNext | src/main/java/reactor/core/publisher/FluxHandle.java:273-303 | fields, trace and answer follow TryOnNextStep; keeps the invariant |
| ConditionalPath.HandleConditionalSubscriber.OnError | src/main/java/reactor/core/publisher/FluxHandle.java:306-315 | fields and trace follow OnErrorStep; keeps the invariant when it held |
| ConditionalPath.HandleConditionalSubscriber.OnComplete | src/main/java/reactor/core/publisher/FluxHandle.java:318-325 | fields and trace follow OnCompleteStep; keeps the invariant |
| ConditionalPath.HandleConditionalSubscriber.Request | src/main/java/reactor/core/publisher/FluxHandle.java:352-354 | forwards request(n) verbatim; fields unchanged |
| ConditionalPath.HandleConditionalSubscriber.Cancel | src/main/java/reactor/core/publisher/FluxHandle.java:357-359 | forwards cancel; fields unchanged |
| ConditionalPath.HandleConditionalSubscriber.Scan | src/main/java/reactor/core/publisher/FluxHandle.java:362-372 | PARENT is s, held exactly when downstream got onSubscribe; TERMINATED is done, implied by a terminal signal; ERROR is the recorded error, present only once done |
| HandleOperator.MapAndFilterScenario | src/main/java/reactor/core/publisher/FluxHandle.java:81-110 | doubling the even items of 1..5 with unbounded demand sends 4 and 8 and onComplete, and one request(1) for each odd item |
| HandleOperator.EarlyTerminationScenario | src/main/java/reactor/core/publisher/FluxHandle.java:94-106 | completing at 3 sends 1, 2, 3, cancels upstream, completes, and drops 4 and 5 |
| HandleOperator.HandlerFaultScenario | src/main/java/reactor/core/publisher/FluxHandle.java:87-93 | throwing at 3 sends 1, 2, cancels upstream, sends one onError tagged with 3, and drops 4 and 5 |

## Left out

- Operators helpers. The bodies of `Operators.validate`, `Operators.onOperatorError`,
  `Operators.onNextDropped` and `Operators.onErrorDropped` are not part of this model.
  - `validate` is modelled as: accept when no subscription is held, otherwise cancel
    the new one.
  - `onOperatorError` is modelled as: cancel the given subscription if there is one,
    and tag the error with the item.
  - The drop hooks are entries in the trace.
  - The error report `validate` makes for a duplicate subscription, and any hook
    `onOperatorError` consults, are not modelled.
- `InnerOperator.super.scan` is not part of this model. Keys other than PARENT,
  TERMINATED and ERROR answer `Inherited`.
- `actual()`, the `Flux`/`FluxSource` composition, and the upstream `source.subscribe`
  call are plumbing. `Subscribe` returns the subscriber it would pass upstream.
- Signals before `onSubscribe` are not modelled. `onNext`, `tryOnNext`, `request`
  and `cancel` require a held subscription. In the code, with `s` still null, a
  filtered item, a stop, `request` and `cancel` dereference the null `s`, while a
  mapped item is forwarded normally. Rule 1.9 of the Reactive Streams specification
  rules this out for a compliant upstream.
- Concurrency: `request` and `cancel` racing with `onNext` is not modelled. All calls
  are sequential, and the code adds no synchronisation of its own.
- Handlers and downstream subscribers are values, not objects.
  - A handler is a pure function from item to turn, so a handler that keeps state
    between items is not modelled.
  - Downstream's `tryOnNext` answer is a parameter (`accepted`).
  - Exceptions thrown by downstream's own methods are not modelled.
- Java's distinction between fatal and non-fatal throwables is not modelled; every
  throwable from the handler is caught.
- `request(long n)` is modelled with an unbounded `int` passed through unchanged; the
  64-bit range is not enforced.
- Demand accounting is upstream's own and is not modelled: the trace records the
  request calls, not the outstanding demand.
- src/test/java/reactor/core/publisher/FluxWindowBoundaryTest.java tests another
  operator and is not part of this model.
