/** SynchronousSink as both subscribers implement it: the per-turn fields the
    handler writes through next, complete and error, and what running a whole
    handler turn does to them. */
module Sink {
  import opened Signals

  /** The fields the sink methods write: the recorded value, the flag that
      complete() and error() raise (`stop` in HandleSubscriber, `done` in
      HandleConditionalSubscriber), and the error given to error(). */
  datatype Slot<T, R> = Slot(data: Option<R>, flag: bool, error: Option<Throwable<T>>)

  /** The fields after a call, and the exception the call threw, if any. */
  datatype Outcome<T, R> = Outcome(slot: Slot<T, R>, thrown: Option<Throwable<T>>)

  /** next(o): a second value in one turn is an IllegalStateException, a null
      value a NullPointerException; either way nothing is written. */
  function RecordNext<T, R>(sl: Slot<T, R>, v: Option<R>): (r: Outcome<T, R>)
    ensures r.thrown.None? <==> sl.data.None? && v.Some?
    ensures sl.data.Some? ==> r.thrown == Some(IllegalState)
    ensures sl.data.None? && v.None? ==> r.thrown == Some(NullPointer)
    ensures r.thrown.Some? ==> r.slot == sl
    ensures r.thrown.None? ==> r.slot.data == v && r.slot.flag == sl.flag && r.slot.error == sl.error
  {
    if sl.data.Some? then Outcome(sl, Some(IllegalState))
    else if v.None? then Outcome(sl, Some(NullPointer))
    else Outcome(sl.(data := v), None)
  }

  /** complete(): raises the flag and nothing else. */
  function RecordComplete<T, R>(sl: Slot<T, R>): (r: Slot<T, R>)
    ensures r.flag && r.data == sl.data && r.error == sl.error
  {
    sl.(flag := true)
  }

  /** error(e): a null e is a NullPointerException and writes nothing; otherwise
      e is recorded and the flag raised. */
  function RecordError<T, R>(sl: Slot<T, R>, e: Option<Throwable<T>>): (r: Outcome<T, R>)
    ensures r.thrown.None? <==> e.Some?
    ensures r.thrown.Some? ==> r.thrown == Some(NullPointer) && r.slot == sl
    ensures r.thrown.None? ==> r.slot.flag && r.slot.error == e && r.slot.data == sl.data
  {
    if e.None? then Outcome(sl, Some(NullPointer)) else Outcome(Slot(sl.data, true, e), None)
  }

  /** A sink call throws nothing but IllegalStateException or NullPointerException. */
  predicate SinkFault<T>(x: Option<Throwable<T>>) {
    x == Some(IllegalState) || x == Some(NullPointer)
  }

  function Apply<T, R>(sl: Slot<T, R>, op: SinkOp<T, R>): (r: Outcome<T, R>)
    ensures r.thrown.None? || SinkFault(r.thrown)
  {
    match op
    case Next(v) => RecordNext(sl, v)
    case Complete => Outcome(RecordComplete(sl), None)
    case Error(e) => RecordError(sl, e)
  }

  /** The sink calls of a turn, in order: the first call that throws ends the
      handler with that exception; if none does, the handler ends with `throws`. */
  function RunOps<T, R>(sl: Slot<T, R>, ops: seq<SinkOp<T, R>>, throws: Option<Throwable<T>>): (r: Outcome<T, R>)
    ensures r.thrown == throws || SinkFault(r.thrown)
    ensures throws.Some? ==> r.thrown.Some?
    decreases |ops|
  {
    if ops == [] then Outcome(sl, throws)
    else
      var o := Apply(sl, ops[0]);
      if o.thrown.Some? then o else RunOps(o.slot, ops[1..], throws)
  }

  /** handler.accept(t, sink) for a handler that behaves as `turn`. */
  function RunHandler<T, R>(sl: Slot<T, R>, turn: Turn<T, R>): (r: Outcome<T, R>)
    ensures r.thrown == turn.throws || SinkFault(r.thrown)
    ensures turn.throws.Some? ==> r.thrown.Some?
  {
    RunOps(sl, turn.ops, turn.throws)
  }

  function NextCount<T, R>(ops: seq<SinkOp<T, R>>): nat {
    if ops == [] then 0 else (if ops[0].Next? then 1 else 0) + NextCount(ops[1..])
  }

  predicate NonNullOp<T, R>(op: SinkOp<T, R>) {
    (op.Next? ==> op.value.Some?) && (op.Error? ==> op.error.Some?)
  }

  /** No call passes null. */
  predicate NonNull<T, R>(ops: seq<SinkOp<T, R>>) {
    forall i :: 0 <= i < |ops| ==> NonNullOp(ops[i])
  }

  lemma NonNullCons<T, R>(ops: seq<SinkOp<T, R>>)
    requires ops != []
    ensures NonNull(ops) <==> NonNullOp(ops[0]) && NonNull(ops[1..])
  {
    if NonNullOp(ops[0]) && NonNull(ops[1..]) {
      forall i | 0 <= i < |ops| ensures NonNullOp(ops[i]) {
        if i > 0 { assert ops[i] == ops[1..][i - 1]; }
      }
    }
  }

  /** A script with no next call in it. */
  lemma {:induction false} NoNextCounted<T, R>(ops: seq<SinkOp<T, R>>)
    requires NextCount(ops) == 0
    ensures forall k :: 0 <= k < |ops| ==> !ops[k].Next?
    decreases |ops|
  {
    if ops != [] {
      NoNextCounted(ops[1..]);
      forall k | 0 < k < |ops| ensures !ops[k].Next? { assert ops[k] == ops[1..][k - 1]; }
    }
  }

  /** The calls a sink accepts without throwing, starting from recorded value d:
      no null argument and at most one value per turn. */
  predicate Legal<T, R>(d: Option<R>, ops: seq<SinkOp<T, R>>) {
    NonNull(ops) && NextCount(ops) + (if d.Some? then 1 else 0) <= 1
  }

  /** The sink calls all return normally exactly when they are legal; otherwise the
      handler is cut short by an IllegalStateException or a NullPointerException. */
  lemma {:induction false} RunOpsThrowsUnlessLegal<T, R>(sl: Slot<T, R>, ops: seq<SinkOp<T, R>>, throws: Option<Throwable<T>>)
    ensures Legal(sl.data, ops) ==> RunOps(sl, ops, throws).thrown == throws
    ensures !Legal(sl.data, ops) ==>
      RunOps(sl, ops, throws).thrown == Some(IllegalState) || RunOps(sl, ops, throws).thrown == Some(NullPointer)
    decreases |ops|
  {
    if ops != [] {
      var o := Apply(sl, ops[0]);
      NonNullCons(ops);
      if o.thrown.None? {
        RunOpsThrowsUnlessLegal(o.slot, ops[1..], throws);
      }
    }
  }

  /** Once a value is recorded, no later call in the turn replaces it, whether or
      not the handler throws. */
  lemma {:induction false} RunOpsKeepsValue<T, R>(sl: Slot<T, R>, ops: seq<SinkOp<T, R>>, throws: Option<Throwable<T>>)
    requires sl.data.Some?
    ensures RunOps(sl, ops, throws).slot.data == sl.data
    decreases |ops|
  {
    if ops != [] {
      var o := Apply(sl, ops[0]);
      if o.thrown.None? {
        RunOpsKeepsValue(o.slot, ops[1..], throws);
      }
    }
  }

  /** The flag is never lowered, a recorded error is never cleared, and an error
      appears only with the flag raised. */
  lemma {:induction false} RunOpsRaisesOnly<T, R>(sl: Slot<T, R>, ops: seq<SinkOp<T, R>>, throws: Option<Throwable<T>>)
    ensures sl.flag ==> RunOps(sl, ops, throws).slot.flag
    ensures sl.error.Some? ==> RunOps(sl, ops, throws).slot.error.Some?
    ensures RunOps(sl, ops, throws).slot.error.Some? ==> sl.error.Some? || RunOps(sl, ops, throws).slot.flag
    decreases |ops|
  {
    if ops != [] {
      var o := Apply(sl, ops[0]);
      if o.thrown.None? {
        RunOpsRaisesOnly(o.slot, ops[1..], throws);
      }
    }
  }

  /** A turn whose calls are legal ends with: the one value passed to next (or the
      value already there), the flag raised exactly when complete or error was
      called, and the error of the last error call (or the one already there). */
  lemma {:induction false} RunOpsLegal<T, R>(sl: Slot<T, R>, ops: seq<SinkOp<T, R>>, throws: Option<Throwable<T>>)
    requires Legal(sl.data, ops)
    ensures var r := RunOps(sl, ops, throws);
      && r.thrown == throws
      && (forall i :: 0 <= i < |ops| && ops[i].Next? ==> r.slot.data == ops[i].value)
      && ((forall i :: 0 <= i < |ops| ==> !ops[i].Next?) ==> r.slot.data == sl.data)
      && (r.slot.flag <==> sl.flag || exists i :: 0 <= i < |ops| && (ops[i].Complete? || ops[i].Error?))
      && ((forall i :: 0 <= i < |ops| ==> !ops[i].Error?) ==> r.slot.error == sl.error)
      && (forall i :: 0 <= i < |ops| && ops[i].Error? && (forall j :: i < j < |ops| ==> !ops[j].Error?)
            ==> r.slot.error == ops[i].error)
    decreases |ops|
  {
    var r := RunOps(sl, ops, throws);
    if ops != [] {
      var o := Apply(sl, ops[0]);
      var rest := ops[1..];
      NonNullCons(ops);
      assert o.thrown.None?;
      assert Legal(o.slot.data, rest);
      RunOpsLegal(o.slot, rest, throws);
      assert r == RunOps(o.slot, rest, throws);
      forall i | 0 <= i < |ops| && ops[i].Next?
        ensures r.slot.data == ops[i].value
      {
        if i == 0 {
          NoNextCounted(rest);
        } else {
          assert ops[i] == rest[i - 1];
        }
      }
      if forall i :: 0 <= i < |ops| ==> !ops[i].Next? {
        assert !ops[0].Next?;
        assert forall k :: 0 <= k < |rest| ==> !rest[k].Next? by {
          forall k | 0 <= k < |rest| ensures !rest[k].Next? { assert rest[k] == ops[k + 1]; }
        }
      }
      if exists i :: 0 <= i < |ops| && (ops[i].Complete? || ops[i].Error?) {
        var i :| 0 <= i < |ops| && (ops[i].Complete? || ops[i].Error?);
        if i > 0 { assert rest[i - 1] == ops[i]; }
        else { RunOpsRaisesOnly(o.slot, rest, throws); }
      }
      if exists k :: 0 <= k < |rest| && (rest[k].Complete? || rest[k].Error?) {
        var k :| 0 <= k < |rest| && (rest[k].Complete? || rest[k].Error?);
        assert ops[k + 1] == rest[k];
      }
      if forall i :: 0 <= i < |ops| ==> !ops[i].Error? {
        assert forall k :: 0 <= k < |rest| ==> !rest[k].Error? by {
          forall k | 0 <= k < |rest| ensures !rest[k].Error? { assert rest[k] == ops[k + 1]; }
        }
      }
      forall i | 0 <= i < |ops| && ops[i].Error? && (forall j :: i < j < |ops| ==> !ops[j].Error?)
        ensures r.slot.error == ops[i].error
      {
        if i == 0 {
          assert forall k :: 0 <= k < |rest| ==> !rest[k].Error? by {
            forall k | 0 <= k < |rest| ensures !rest[k].Error? { assert rest[k] == ops[k + 1]; }
          }
        } else {
          assert rest[i - 1] == ops[i];
          forall j | i - 1 < j < |rest| ensures !rest[j].Error? { assert rest[j] == ops[j + 1]; }
        }
      }
    }
  }

  lemma {:induction false} NextCountPositive<T, R>(ops: seq<SinkOp<T, R>>, k: nat)
    requires k < |ops| && ops[k].Next?
    ensures NextCount(ops) >= 1
    decreases k
  {
    if k > 0 {
      assert ops[1..][k - 1] == ops[k];
      NextCountPositive(ops[1..], k - 1);
    }
  }

  lemma {:induction false} NextCountTwo<T, R>(ops: seq<SinkOp<T, R>>, i: nat, j: nat)
    requires i < j < |ops| && ops[i].Next? && ops[j].Next?
    ensures NextCount(ops) >= 2
    decreases i
  {
    assert ops[1..][j - 1] == ops[j];
    if i > 0 {
      assert ops[1..][i - 1] == ops[i];
      NextCountTwo(ops[1..], i - 1, j - 1);
    } else {
      NextCountPositive(ops[1..], j - 1);
    }
  }

  /** A handler that calls next twice in one turn never returns normally: the
      second call at the latest throws, and the turn ends in an
      IllegalStateException or, if a null argument came first, a NullPointerException. */
  lemma SecondNextThrows<T, R>(sl: Slot<T, R>, ops: seq<SinkOp<T, R>>, throws: Option<Throwable<T>>, i: nat, j: nat)
    requires i < j < |ops| && ops[i].Next? && ops[j].Next?
    ensures RunOps(sl, ops, throws).thrown == Some(IllegalState) || RunOps(sl, ops, throws).thrown == Some(NullPointer)
  {
    NextCountTwo(ops, i, j);
    RunOpsThrowsUnlessLegal(sl, ops, throws);
  }

  /** error(e) takes precedence over complete(): if a legal turn calls error at all,
      an error is recorded when it ends, whatever the order of the calls. */
  lemma ErrorWinsOverComplete<T, R>(sl: Slot<T, R>, ops: seq<SinkOp<T, R>>, throws: Option<Throwable<T>>, i: nat)
    requires Legal(sl.data, ops)
    requires i < |ops| && ops[i].Error?
    ensures RunOps(sl, ops, throws).slot.error.Some?
    ensures RunOps(sl, ops, throws).slot.flag
  {
    RunOpsLegal(sl, ops, throws);
    var last := LastErrorAt(ops, i);
    assert ops[last].error.Some?;
  }

  /** The position of the last error call at or after i. */
  lemma {:induction false} LastErrorAt<T, R>(ops: seq<SinkOp<T, R>>, i: nat) returns (last: nat)
    requires i < |ops| && ops[i].Error?
    ensures i <= last < |ops| && ops[last].Error?
    ensures forall j :: last < j < |ops| ==> !ops[j].Error?
    decreases |ops| - i
  {
    if exists j :: i < j < |ops| && ops[j].Error? {
      var j :| i < j < |ops| && ops[j].Error?;
      last := LastErrorAt(ops, j);
    } else {
      last := i;
    }
  }
}
