/** Runs of store calls, and the bounds that hold over every run. */
module StoreRuns {
  import opened Quota
  import opened Bucket
  import opened StoreSpec
  import opened StoreLedger

  /** A call and the clock reading it is made at. */
  datatype Timed = Timed(nowMs: int, call: Call)

  function RunBooks(b: Books, run: seq<Timed>): Books
    decreases |run|
  {
    if run == [] then b else RunBooks(Exec(b, run[0].nowMs, run[0].call), run[1..])
  }

  /** Debits minus credits of one bucket over a run. */
  function NetFlow(b: Books, run: seq<Timed>, slot: Slot): int
    decreases |run|
  {
    if run == [] then 0
    else Flow(b, run[0].nowMs, run[0].call, slot) + NetFlow(Exec(b, run[0].nowMs, run[0].call), run[1..], slot)
  }

  /** The clock's total forward motion. */
  function Forward(startMs: int, run: seq<Timed>): nat
    decreases |run|
  {
    if run == [] then 0 else Max(0, run[0].nowMs - startMs) + Forward(run[0].nowMs, run[1..])
  }

  function ClockAfter(startMs: int, run: seq<Timed>): int {
    if run == [] then startMs else run[|run| - 1].nowMs
  }

  /** Either the clock never goes back and limits may change, or limits are fixed and the clock may wander. */
  datatype Regime = MonotoneClock | FixedLimit

  predicate Within(regime: Regime, limit: int, m: nat) {
    if regime.FixedLimit? then limit == m else limit <= m
  }

  /** The limits a caller passes. */
  predicate CallWithin(regime: Regime, c: Call, slot: Slot, m: nat) {
    match c
    case CheckCall(key, limits, _, _) => Touches(slot, key, Split(limits)) ==> Within(regime, limits.At(slot.axis), m)
    case BorrowCall(key, limits, _) => Touches(slot, key, Split(limits)) ==> Within(regime, limits.At(slot.axis), m)
    case ReturnCall(key, limits, _) => Touches(slot, key, Split(limits)) ==> Within(regime, limits.At(slot.axis), m)
    case SettleCall(_, _, _) => true
    case RefundCall(_) => true
  }

  predicate Admissible(regime: Regime, startMs: int, run: seq<Timed>, slot: Slot, m: nat)
    decreases |run|
  {
    run == [] ||
    (0 < run[0].nowMs && (regime.MonotoneClock? ==> startMs <= run[0].nowMs) &&
     CallWithin(regime, run[0].call, slot, m) &&
     Admissible(regime, run[0].nowMs, run[1..], slot, m))
  }

  predicate SnapshotsWithin(regime: Regime, res: map<string, Reservation>, slot: Slot, m: nat) {
    forall id | id in res && Touches(slot, res[id].key, res[id].split) ::
      Within(regime, res[id].limits.At(slot.axis), m)
  }

  predicate Steady(regime: Regime, b: Books, startMs: int, slot: Slot, m: nat) {
    var cell := CellAt(b, slot);
    SnapshotsWithin(regime, b.res, slot, m) &&
    (cell.Some? ==> if regime.FixedLimit? then cell.value.tokens <= m * UNIT else cell.value.lastMs <= startMs)
  }

  lemma SnapshotsStayWithin(regime: Regime, b: Books, e: Timed, slot: Slot, m: nat)
    requires SnapshotsWithin(regime, b.res, slot, m) && CallWithin(regime, e.call, slot, m)
    ensures SnapshotsWithin(regime, Exec(b, e.nowMs, e.call).res, slot, m)
  {
    hide Exec, Masked;
    var res' := Exec(b, e.nowMs, e.call).res;
    forall id | id in res' && Touches(slot, res'[id].key, res'[id].split)
      ensures Within(regime, res'[id].limits.At(slot.axis), m)
    {
      ReservationOrigin(b, e.nowMs, e.call, id);
      if id !in b.res || !SameTerms(b.res[id], res'[id]) {
        MaskedKeepsMetered(Split(e.call.limits), e.call.limits, slot.axis);
      }
    }
  }

  lemma SteadyStep(regime: Regime, b: Books, startMs: int, e: Timed, slot: Slot, m: nat)
    requires Steady(regime, b, startMs, slot, m) && Admissible(regime, startMs, [e], slot, m)
    ensures Steady(regime, Exec(b, e.nowMs, e.call), e.nowMs, slot, m)
    ensures Flow(b, e.nowMs, e.call, slot) * UNIT + PotentialAt(Exec(b, e.nowMs, e.call), e.nowMs, slot, m)
              <= PotentialAt(b, e.nowMs, slot, m)
  {
    hide Exec, Flow, PotentialAt, Potential;
    SnapshotsStayWithin(regime, b, e, slot, m);
    CallPays(b, e.nowMs, e.call, slot, m);
  }

  lemma TimeFills(cell: Option<Cell>, t0: int, t1: int, m: nat)
    ensures Potential(cell, t1, m) <= Potential(cell, t0, m) + Gain(m, Max(0, t1 - t0))
  {
    if cell.Some? {
      var d0, d1 := Max(0, t0 - cell.value.lastMs), Max(0, t1 - cell.value.lastMs);
      assert d1 <= d0 + Max(0, t1 - t0);
      assert Gain(m, d1) <= Gain(m, d0) + Gain(m, Max(0, t1 - t0)) by {
        assert m * d1 <= m * (d0 + Max(0, t1 - t0));
      }
    }
  }

  /** Over any run a bucket gives no more than its potential and what the clock's forward motion adds. */
  lemma {:induction false} RunBound(regime: Regime, b: Books, startMs: int, run: seq<Timed>, slot: Slot, m: nat)
    requires Steady(regime, b, startMs, slot, m) && Admissible(regime, startMs, run, slot, m)
    ensures NetFlow(b, run, slot) * UNIT + PotentialAt(RunBooks(b, run), ClockAfter(startMs, run), slot, m)
              <= PotentialAt(b, startMs, slot, m) + Gain(m, Forward(startMs, run))
    ensures Steady(regime, RunBooks(b, run), ClockAfter(startMs, run), slot, m)
    decreases |run|
  {
    hide Exec, Flow, Potential, Steady;
    if run == [] {
    } else {
      var e := run[0];
      TimeFills(CellAt(b, slot), startMs, e.nowMs, m);
      SteadyStep(regime, b, startMs, e, slot, m);
      RunBound(regime, Exec(b, e.nowMs, e.call), e.nowMs, run[1..], slot, m);
      assert Gain(m, Forward(startMs, run)) == Gain(m, Max(0, e.nowMs - startMs)) + Gain(m, Forward(e.nowMs, run[1..]));
      assert ClockAfter(startMs, run) == ClockAfter(e.nowMs, run[1..]);
    }
  }

  lemma {:induction false} MonotoneForward(startMs: int, run: seq<Timed>, slot: Slot, m: nat)
    requires Admissible(MonotoneClock, startMs, run, slot, m)
    ensures Forward(startMs, run) == ClockAfter(startMs, run) - startMs
    decreases |run|
  {
    if run != [] {
      MonotoneForward(run[0].nowMs, run[1..], slot, m);
      assert ClockAfter(startMs, run) == ClockAfter(run[0].nowMs, run[1..]);
    }
  }

  /** Window bound: with a clock that never goes back and limits at most m, however they change, debits
      minus credits of a bucket over a run are at most m tokens plus m per minute elapsed. */
  lemma WindowBound(b: Books, startMs: int, run: seq<Timed>, slot: Slot, m: nat)
    requires Steady(MonotoneClock, b, startMs, slot, m) && Admissible(MonotoneClock, startMs, run, slot, m)
    ensures NetFlow(b, run, slot) * UNIT <= m * UNIT + Gain(m, ClockAfter(startMs, run) - startMs)
  {
    hide Admissible, Steady, Gain, ClockAfter;
    RunBound(MonotoneClock, b, startMs, run, slot, m);
    MonotoneForward(startMs, run, slot, m);
  }

  /** Wandering clock: with the limit of the bucket fixed the same holds for any positive clock, counting
      only its forward motion. */
  lemma WanderingClockBound(b: Books, startMs: int, run: seq<Timed>, slot: Slot, m: nat)
    requires Steady(FixedLimit, b, startMs, slot, m) && Admissible(FixedLimit, startMs, run, slot, m)
    ensures NetFlow(b, run, slot) * UNIT <= m * UNIT + Gain(m, Forward(startMs, run))
  {
    hide Admissible, Steady, Gain;
    RunBound(FixedLimit, b, startMs, run, slot, m);
  }

  /** Everything the reservations of a run hold, counting those forgotten on the way. */
  ghost function ForgottenIn(b: Books, run: seq<Timed>, slot: Slot): int
    decreases |run|
  {
    if run == [] then 0
    else Forgotten(b, run[0].nowMs, run[0].call, slot) + ForgottenIn(Exec(b, run[0].nowMs, run[0].call), run[1..], slot)
  }

  predicate ReservationCallsOnly(run: seq<Timed>) {
    forall e | e in run :: !e.call.BorrowCall? && !e.call.ReturnCall?
  }

  lemma {:induction false} HoldsAreFlow(b: Books, run: seq<Timed>, slot: Slot)
    requires WellFormed(b) && ReservationCallsOnly(run)
    ensures Holds(RunBooks(b, run).res, slot) + ForgottenIn(b, run, slot) == Holds(b.res, slot) + NetFlow(b, run, slot)
    decreases |run|
  {
    hide Exec, Flow, Holds, Forgotten, WellFormed;
    if run != [] {
      HoldsFollowFlow(b, run[0].nowMs, run[0].call, slot);
      HoldsAreFlow(Exec(b, run[0].nowMs, run[0].call), run[1..], slot);
    }
  }

  /** Usage bound on the direct store: reserved amounts of pending and forgotten reservations, plus actual
      amounts up to reported overshoot, never exceed m tokens plus m per minute since the cold start. */
  lemma UsageBound(startMs: int, run: seq<Timed>, slot: Slot, m: nat)
    requires Admissible(MonotoneClock, startMs, run, slot, m) && ReservationCallsOnly(run)
    ensures (Holds(RunBooks(EMPTY, run).res, slot) + ForgottenIn(EMPTY, run, slot)) * UNIT
              <= m * UNIT + Gain(m, ClockAfter(startMs, run) - startMs)
  {
    hide Admissible, Gain, ClockAfter, RunBooks, NetFlow;
    WindowBound(EMPTY, startMs, run, slot, m);
    HoldsAreFlow(EMPTY, run, slot);
  }
}
