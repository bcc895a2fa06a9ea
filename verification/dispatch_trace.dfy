/** Sequential runs of dispatcher operations, and the invariants they keep:
    drivers leave the idle queue in the order they joined it, and the
    awaiting-driver counter stays non-negative unless decremented unclamped or
    incremented past the `int` maximum. */
module DispatchTrace {
  import opened Wrappers
  import opened JavaInt
  import opened BookingData
  import opened Dispatch

  datatype Op = AddOp(driver: Driver) | GetOp | DecrementOp

  /** The dispatcher's state together with every driver handed out so far, in order. */
  datatype Trace = Trace(state: DispatchState, handedOut: seq<Driver>)

  /** One operation; `None` when a `getDriver` finds the queue empty and, with
      nobody else running, would wait forever. */
  function Step(t: Trace, op: Op): (r: Option<Trace>)
    ensures r.None? <==> op.GetOp? && t.state.idleDrivers == []
  {
    match op
    case AddOp(driver) => Some(Trace(AddDriver(t.state, driver).state, t.handedOut))
    case GetOp =>
      if t.state.idleDrivers == [] then None
      else
        var a := GetDriver(t.state);
        Some(Trace(a.state, t.handedOut + [a.driver]))
    case DecrementOp => Some(Trace(DecrementBookingCount(t.state), t.handedOut))
  }

  function Run(t: Trace, ops: seq<Op>): Option<Trace>
    decreases |ops|
  {
    if ops == [] then Some(t)
    else
      match Step(t, ops[0])
      case None => None
      case Some(t') => Run(t', ops[1..])
  }

  /** No run changes the region registry, so a consistent registry stays consistent
      and `bookPassenger` keeps finding each region under its own name. */
  lemma {:induction false} RunKeepsRegistry(t: Trace, ops: seq<Op>)
    ensures Run(t, ops).Some? ==> Run(t, ops).value.state.regions == t.state.regions
    ensures Run(t, ops).Some? && RegistryConsistent(t.state) ==> RegistryConsistent(Run(t, ops).value.state)
    decreases |ops|
  {
    if ops != [] && Step(t, ops[0]).Some? {
      RunKeepsRegistry(Step(t, ops[0]).value, ops[1..]);
    }
  }

  /** The drivers `ops` add, in order. */
  function Added(ops: seq<Op>): seq<Driver> {
    if ops == [] then []
    else (if ops[0].AddOp? then [ops[0].driver] else []) + Added(ops[1..])
  }

  function GetCount(ops: seq<Op>): nat {
    if ops == [] then 0
    else (if ops[0].GetOp? then 1 else 0) + GetCount(ops[1..])
  }

  /** Whether `ops` can run to the end from a queue of `idle` drivers without a
      `getDriver` meeting an empty queue. */
  predicate NeverStarves(idle: nat, ops: seq<Op>)
    decreases |ops|
  {
    if ops == [] then true
    else
      match ops[0]
      case AddOp(_) => NeverStarves(idle + 1, ops[1..])
      case GetOp => idle > 0 && NeverStarves(idle - 1, ops[1..])
      case DecrementOp => NeverStarves(idle, ops[1..])
  }

  /** A run completes exactly when no `getDriver` in it ever faces an empty queue. */
  lemma {:induction false} RunCompletesIff(t: Trace, ops: seq<Op>)
    ensures Run(t, ops).Some? <==> NeverStarves(|t.state.idleDrivers|, ops)
    decreases |ops|
  {
    if ops != [] {
      match Step(t, ops[0])
      case None =>
      case Some(t') => RunCompletesIff(t', ops[1..]);
    }
  }

  /** The drivers one operation adds. */
  function AddedBy(op: Op): seq<Driver> {
    if op.AddOp? then [op.driver] else []
  }

  lemma StepKeepsOrder(t: Trace, op: Op)
    requires Step(t, op).Some?
    ensures Step(t, op).value.handedOut + Step(t, op).value.state.idleDrivers
              == t.handedOut + t.state.idleDrivers + AddedBy(op)
  {
  }

  /** FIFO: the drivers handed out, followed by those still idle, are exactly the
      drivers idle at the start followed by the drivers added, in order. */
  lemma {:induction false} FifoOrder(t: Trace, ops: seq<Op>)
    ensures Run(t, ops).Some? ==>
              Run(t, ops).value.handedOut + Run(t, ops).value.state.idleDrivers
                == t.handedOut + t.state.idleDrivers + Added(ops)
    decreases |ops|
  {
    if ops != [] && Step(t, ops[0]).Some? {
      var t' := Step(t, ops[0]).value;
      StepKeepsOrder(t, ops[0]);
      FifoOrder(t', ops[1..]);
      assert Added(ops) == AddedBy(ops[0]) + Added(ops[1..]);
      assert Run(t, ops) == Run(t', ops[1..]);
    }
  }

  /** Without the unclamped decrement, and as long as the increments cannot pass the
      `int` maximum, the awaiting-driver counter never goes below zero, and never
      rises by more than the number of `getDriver` calls. */
  lemma {:induction false} CounterStaysNonNegative(t: Trace, ops: seq<Op>)
    requires 0 <= t.state.bookingCount
    requires t.state.bookingCount + GetCount(ops) <= INT_MAX
    requires forall i :: 0 <= i < |ops| ==> !ops[i].DecrementOp?
    ensures Run(t, ops).Some? ==>
              0 <= Run(t, ops).value.state.bookingCount <= t.state.bookingCount + GetCount(ops)
    decreases |ops|
  {
    if ops != [] {
      match Step(t, ops[0])
      case None =>
      case Some(t') =>
        assert forall i :: 0 <= i < |ops[1..]| ==> !ops[1..][i].DecrementOp?;
        CounterStaysNonNegative(t', ops[1..]);
    }
  }

  /** The bound on increments matters: `int` arithmetic wraps, so a `getDriver`
      at the maximum count leaves it negative. */
  lemma CounterWrapsAtMaximum(t: Trace)
    requires t.state.bookingCount == INT_MAX
    requires t.state.idleDrivers != []
    ensures Run(t, [GetOp]).Some? && Run(t, [GetOp]).value.state.bookingCount < 0
  {
  }

  /** The two adds, two gets scenario as a run: `d1` then `d2` come out, the pool
      ends empty, and the counter, clamped at zero by the adds, ends at two. */
  lemma FifoScenario(regionInfo: map<string, Int32>, logEvents: bool, d1: Driver, d2: Driver)
    ensures var r := Run(Trace(Create(regionInfo, logEvents), []), [AddOp(d1), AddOp(d2), GetOp, GetOp]);
            && r.Some?
            && r.value.handedOut == [d1, d2]
            && r.value.state.idleDrivers == []
            && r.value.state.bookingCount == 2
  {
    var ops := [AddOp(d1), AddOp(d2), GetOp, GetOp];
    var t0 := Trace(Create(regionInfo, logEvents), []);
    var t1 := Step(t0, AddOp(d1)).value;
    var t2 := Step(t1, AddOp(d2)).value;
    assert t2.state.idleDrivers == [d1, d2] && t2.state.bookingCount == 0;
    var t3 := Step(t2, GetOp).value;
    assert t3.state.idleDrivers == [d2] && t3.handedOut == [d1] && t3.state.bookingCount == 1;
    var t4 := Step(t3, GetOp).value;
    assert t4.state.idleDrivers == [] && t4.handedOut == [d1, d2] && t4.state.bookingCount == 2;
    assert Run(t3, [GetOp]) == Run(t4, []);
    assert Run(t2, [GetOp, GetOp]) == Run(t3, [GetOp]);
    assert Run(t1, [AddOp(d2), GetOp, GetOp]) == Run(t2, [GetOp, GetOp]);
    assert Run(t0, ops) == Run(t1, [AddOp(d2), GetOp, GetOp]);
  }
}
