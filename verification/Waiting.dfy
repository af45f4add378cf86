/** What the waits returned with a refusal are worth. */
module Waiting {
  import opened Quota
  import opened Bucket
  import opened BucketLaws
  import opened StoreSpec
  import opened StoreLedger
  import opened StoreRuns
  import opened StoreLaws

  /** The order in which the axes of a mode are tried. */
  function Rank(a: Axis): nat {
    match a
    case Rpm => 0
    case Tpm => 1
    case Itpm => 1
    case Otpm => 2
  }

  predicate Refuses(reply: Result<Decision>) {
    reply.Ok? && !reply.value.allowed
  }

  /** A refusal names the first axis that is short, carries that axis's wait, and changes no bucket. */
  lemma RefusalNamesFirst(b: Books, nowMs: int, key: Key, limits: Amounts, cost: Amounts, id: string)
    requires Refuses(Check(b, nowMs, key, limits, cost, id).1)
    ensures var (b', reply) := Check(b, nowMs, key, limits, cost, id);
            var k := BucketKey(key);
            reply.value.limitType.On? &&
            var bad := reply.value.limitType.axis;
            Metered(Split(limits), bad) && !AxisAdmits(b, bad, k, limits, nowMs, cost) &&
            reply.value.retryMs == TryConsume(b.Load(bad, k, limits, nowMs), nowMs, Clamp(cost.At(bad))).1.retryMs &&
            (forall a | Metered(Split(limits), a) && Rank(a) < Rank(bad) :: AxisAdmits(b, a, k, limits, nowMs, cost)) &&
            b' == Purged(b, nowMs)
  {
    hide TryConsume, LoadBucket, Saved, Shown, Each;
    var k := BucketKey(key);
    assert forall a :: Consumed(Purged(b, nowMs), a, k, limits, nowMs, cost.Clamped()) ==
                       TryConsume(b.Load(a, k, limits, nowMs), nowMs, Clamp(cost.At(a)));
  }

  predicate CostFits(limits: Amounts, cost: Amounts, a: Axis) {
    Clamp(cost.At(a)) <= limits.At(a)
  }

  /** Every cost of the mode fits its limit. */
  predicate Fits(limits: Amounts, cost: Amounts) {
    forall a | Metered(Split(limits), a) :: CostFits(limits, cost, a)
  }

  /** After the wait an axis that was short, or was not, is not. */
  lemma AxisAfterWait(b: Books, a: Axis, k: string, limits: Amounts, t1: int, t2: int, cost: Amounts)
    requires 0 < t1 <= t2 && WrittenBy(b, t1) && Clamp(cost.At(a)) <= limits.At(a)
    requires var out := TryConsume(b.Load(a, k, limits, t1), t1, Clamp(cost.At(a))).1;
             out.allowed || t2 >= t1 + out.retryMs
    ensures AxisAdmits(b, a, k, limits, t2, cost)
  {
    LoadIsFresh(b, a, k, limits, t1, t2);
    var s, c := b.Load(a, k, limits, t1), Clamp(cost.At(a));
    hide TryConsume, LoadBucket, Refill, RetryAfter;
    if TryConsume(s, t1, c).1.allowed {
      AdmittedStaysAdmitted(s, t1, c, t2);
    } else {
      WaitIsEnough(s, t1, c, t2);
    }
    ConsumeLoaded(s, t1, c, t2);
  }

  lemma ConsumeLoaded(s: State, t1: int, c: int, t2: int)
    requires Fresh(s, t1) && t1 <= t2
    ensures TryConsume(Refill(s, t2), t2, c) == TryConsume(s, t2, c)
  {
    RefillTwice(s, t2, t2);
  }

  /** Progress: retrying after the wait, with no other traffic, a refusal names a strictly later axis. */
  lemma WaitMovesOn(b: Books, t1: int, t2: int, key: Key, limits: Amounts, cost: Amounts, id1: string, id2: string)
    requires 0 < t1 && WrittenBy(b, t1) && Fits(limits, cost)
    requires var (b1, first) := Check(b, t1, key, limits, cost, id1);
             Refuses(first) && t2 >= t1 + Max(0, first.value.retryMs) &&
               Refuses(Check(b1, t2, key, limits, cost, id2).1)
    ensures var (b1, first) := Check(b, t1, key, limits, cost, id1);
            var second := Check(b1, t2, key, limits, cost, id2).1;
            first.value.limitType.On? && second.value.limitType.On? &&
            Rank(first.value.limitType.axis) < Rank(second.value.limitType.axis)
  {
    hide TryConsume, LoadBucket, Check;
    var k := BucketKey(key);
    var (b1, first) := Check(b, t1, key, limits, cost, id1);
    RefusalNamesFirst(b, t1, key, limits, cost, id1);
    RefusalNamesFirst(b1, t2, key, limits, cost, id2);
    forall a | Metered(Split(limits), a) && Rank(a) <= Rank(first.value.limitType.axis)
      ensures AxisAdmits(b1, a, k, limits, t2, cost)
    {
      assert AxisAdmits(b, a, k, limits, t1, cost) || a == first.value.limitType.axis;
      AxisAfterWait(b, a, k, limits, t1, t2, cost);
      assert b1.Load(a, k, limits, t2) == b.Load(a, k, limits, t2);
    }
  }

  /** A client that retries the same request, each time after the wait it was given, and is refused every time. */
  predicate RefusedThroughout(b: Books, times: seq<int>, key: Key, limits: Amounts, cost: Amounts, id: string)
    decreases |times|
  {
    times == [] ||
    (var (b1, reply) := Check(b, times[0], key, limits, cost, id);
     Refuses(reply) &&
     (|times| > 1 ==> times[1] >= times[0] + Max(0, reply.value.retryMs)) &&
     RefusedThroughout(b1, times[1..], key, limits, cost, id))
  }

  lemma PurgeKeepsBuckets(b: Books, nowMs: int, t: int)
    requires WrittenBy(b, nowMs) && nowMs <= t
    ensures WrittenBy(Purged(b, nowMs), t)
  {
    assert forall a: Axis :: Purged(b, nowMs).Shelf(a) == b.Shelf(a);
  }

  lemma {:induction false} RefusalsLeft(b: Books, times: seq<int>, key: Key, limits: Amounts, cost: Amounts, id: string)
    requires times != [] && 0 < times[0] && WrittenBy(b, times[0]) && Fits(limits, cost)
    requires RefusedThroughout(b, times, key, limits, cost, id)
    ensures Check(b, times[0], key, limits, cost, id).1.value.limitType.On?
    ensures |times| + Rank(Check(b, times[0], key, limits, cost, id).1.value.limitType.axis) <= |Axes(Split(limits))|
    decreases |times|
  {
    hide Check, WrittenBy;
    RefusalNamesFirst(b, times[0], key, limits, cost, id);
    if |times| > 1 {
      var b1 := Check(b, times[0], key, limits, cost, id).0;
      PurgeKeepsBuckets(b, times[0], times[1]);
      WaitMovesOn(b, times[0], times[1], key, limits, cost, id, id);
      RefusalsLeft(b1, times[1..], key, limits, cost, id);
    }
  }

  /** At most two refusals in a row in classic mode and three in split mode, when every cost fits its limit. */
  lemma RefusalsAreFew(b: Books, times: seq<int>, key: Key, limits: Amounts, cost: Amounts, id: string)
    requires times != [] && 0 < times[0] && WrittenBy(b, times[0]) && Fits(limits, cost)
    requires RefusedThroughout(b, times, key, limits, cost, id)
    ensures |times| <= if Split(limits) then 3 else 2
  {
    RefusalsLeft(b, times, key, limits, cost, id);
  }

  /** A cost above its limit is refused at any time, whatever the store holds. */
  lemma TooLargeIsNeverAdmitted(b: Books, nowMs: int, key: Key, limits: Amounts, cost: Amounts, id: string, a: Axis)
    requires Metered(Split(limits), a) && Clamp(cost.At(a)) > limits.At(a)
    ensures !Admits(Check(b, nowMs, key, limits, cost, id).1)
  {
    hide Check, LoadBucket;
    AdmitsIff(b, nowMs, key, limits, cost, id);
    var s := b.Load(a, BucketKey(key), limits, nowMs);
    assert s.capacity == limits.At(a) by {
      LoadKeepsCapacity(b.Shelf(a), BucketKey(key), limits.At(a), nowMs);
    }
    assert !AxisAdmits(b, a, BucketKey(key), limits, nowMs, cost);
  }

  lemma LoadKeepsCapacity(shelf: map<string, Cell>, k: string, capacity: int, nowMs: int)
    ensures LoadBucket(shelf, k, capacity, nowMs).capacity == capacity
  {
  }

  /** How long an axis says to wait; nothing when it has its cost. */
  function WaitOn(b: Books, a: Axis, k: string, limits: Amounts, nowMs: int, cost: Amounts): int {
    TryConsume(b.Load(a, k, limits, nowMs), nowMs, Clamp(cost.At(a))).1.retryMs
  }

  /** The wait is that of the first short axis.  Retrying exactly when it is over succeeds if and only if it is
      the longest of the waits of all axes, as they were when the request was refused. */
  lemma FirstWaitSufficesIff(b: Books, t1: int, key: Key, limits: Amounts, cost: Amounts, id1: string, id2: string)
    requires 0 < t1 && WrittenBy(b, t1) && Fits(limits, cost) && id2 != ""
    requires Refuses(Check(b, t1, key, limits, cost, id1).1)
    ensures var (b1, first) := Check(b, t1, key, limits, cost, id1);
            var t2 := t1 + Max(0, first.value.retryMs);
            Admits(Check(b1, t2, key, limits, cost, id2).1) <==>
            forall a | Metered(Split(limits), a) ::
              WaitOn(b, a, BucketKey(key), limits, t1, cost) <= first.value.retryMs
  {
    hide TryConsume, LoadBucket, Check, CostFits;
    var k := BucketKey(key);
    var (b1, first) := Check(b, t1, key, limits, cost, id1);
    var t2 := t1 + Max(0, first.value.retryMs);
    RefusalNamesFirst(b, t1, key, limits, cost, id1);
    RefusedIsWellFormed(b, t1, key, limits, cost, id1);
    AdmitsIff(b1, t2, key, limits, cost, id2);
    var bad := first.value.limitType.axis;
    AxisWait(b, bad, k, limits, t1, cost, t2);
    forall a | Metered(Split(limits), a)
      ensures AxisAdmits(b1, a, k, limits, t2, cost) <==> WaitOn(b, a, k, limits, t1, cost) <= first.value.retryMs
    {
      assert b1.Load(a, k, limits, t2) == b.Load(a, k, limits, t2);
      AxisWait(b, a, k, limits, t1, cost, t2);
    }
  }

  /** An axis alone: its wait is whole seconds, none when it has its cost, and any whole number of seconds later
      it has its cost if and only if the wait is over. */
  lemma AxisWait(b: Books, a: Axis, k: string, limits: Amounts, t1: int, cost: Amounts, t2: int)
    requires 0 < t1 <= t2 && WrittenBy(b, t1) && CostFits(limits, cost, a)
    ensures var wait := WaitOn(b, a, k, limits, t1, cost);
            0 <= wait && wait % 1000 == 0 && (!AxisAdmits(b, a, k, limits, t1, cost) ==> wait >= 1000) &&
            ((t2 - t1) % 1000 == 0 ==> (AxisAdmits(b, a, k, limits, t2, cost) <==> wait <= t2 - t1))
  {
    hide LoadBucket, Refill;
    var s, c := b.Load(a, k, limits, t1), Clamp(cost.At(a));
    LoadIsFresh(b, a, k, limits, t1, t2);
    ConsumeLoaded(s, t1, c, t2);
    WaitAlone(s, t1, c, t2);
  }

  lemma WaitAlone(s: State, t1: int, cost: nat, t2: int)
    requires Fresh(s, t1) && t1 <= t2 && cost <= s.capacity
    ensures var out := TryConsume(s, t1, cost).1;
            0 <= out.retryMs && out.retryMs % 1000 == 0 && (!out.allowed ==> out.retryMs >= 1000) &&
            ((t2 - t1) % 1000 == 0 ==> (TryConsume(s, t2, cost).1.allowed <==> out.retryMs <= t2 - t1))
  {
    hide RetryAfter, Refill, TryConsume;
    ZeroWaitWhenAllowed(s, t1, cost);
    var out := TryConsume(s, t1, cost).1;
    if out.allowed {
      AdmittedStaysAdmitted(s, t1, cost, t2);
    } else {
      RefusedAlone(s, t1, cost);
      if out.retryMs <= t2 - t1 {
        WaitIsEnough(s, t1, cost, t2);
      } else if (t2 - t1) % 1000 == 0 {
        WaitIsTight(s, t1, cost, t2);
      }
    }
  }

  lemma ZeroWaitWhenAllowed(s: State, nowMs: int, cost: int)
    ensures TryConsume(s, nowMs, cost).1.allowed ==> TryConsume(s, nowMs, cost).1.retryMs == 0
  {
    hide Refill, RetryAfter;
  }

  lemma RefusedAlone(s: State, nowMs: int, cost: nat)
    requires Fresh(s, nowMs) && cost <= s.capacity && !TryConsume(s, nowMs, cost).1.allowed
    ensures s.capacity > 0 && s.tokens < cost * UNIT && TryConsume(s, nowMs, cost).1.retryMs == RetryAfter(s, cost)
    ensures RetryAfter(s, cost) >= 1000 && RetryAfter(s, cost) % 1000 == 0
  {
    assert s.tokens < cost * UNIT;
    assert s.capacity > 0;
    CeilBounds(cost * UNIT - s.tokens, s.capacity * 1000);
    PositiveFactor(CeilDiv(cost * UNIT - s.tokens, s.capacity * 1000), s.capacity * 1000);
  }

  lemma RefusedIsWellFormed(b: Books, nowMs: int, key: Key, limits: Amounts, cost: Amounts, id: string)
    requires Check(b, nowMs, key, limits, cost, id).1.Ok?
    ensures ValidLimits(limits) && key.subject != ""
  {
  }

  // ----- borrowing

  /** A refused Borrow names the first short axis and that axis's wait, and changes nothing. */
  lemma RefusedBorrow(b: Books, nowMs: int, key: Key, limits: Amounts, spec: BorrowSpec)
    requires var reply := Borrow(b, nowMs, key, limits, spec).1; reply.Ok? && !reply.value.allowed
    ensures var (b', reply) := Borrow(b, nowMs, key, limits, spec);
            b' == b && reply.value.limitType.On? &&
            var bad := reply.value.limitType.axis;
            var s := b.Load(bad, BucketKey(key), limits, nowMs);
            Metered(Split(limits), bad) && Whole(s.tokens) < Clamp(spec.min.At(bad)) &&
            (forall a | Metered(Split(limits), a) && Rank(a) < Rank(bad) ::
               Whole(b.Load(a, BucketKey(key), limits, nowMs).tokens) >= Clamp(spec.min.At(a))) &&
            reply.value.retryMs == TryConsume(s, nowMs, Clamp(spec.min.At(bad))).1.retryMs
  {
    hide TryConsume, LoadBucket, Saved, Shown, Whole;
  }

  /** A Borrow is refused as soon as one axis of its mode is short. */
  lemma ShortAxisRefuses(b: Books, nowMs: int, key: Key, limits: Amounts, spec: BorrowSpec, a: Axis)
    requires Metered(Split(limits), a) && Whole(b.Load(a, BucketKey(key), limits, nowMs).tokens) < Clamp(spec.min.At(a))
    ensures var reply := Borrow(b, nowMs, key, limits, spec).1; reply.Ok? ==> !reply.value.allowed
  {
    hide TryConsume, LoadBucket, Saved, Shown, Whole;
  }

  /** The wait of a refused Borrow can be remembered: whatever calls follow, as long as they do not credit the
      named bucket on balance, a request for at least the refused amount on the named axis, made no later
      than one second before the wait is over, is refused as well. */
  lemma RefusalCanBeRemembered(b: Books, t1: int, key: Key, limits: Amounts, spec: BorrowSpec,
                               run: seq<Timed>, t2: int, limits2: Amounts, spec2: BorrowSpec)
    requires 0 < t1 && WrittenBy(b, t1)
    requires var reply := Borrow(b, t1, key, limits, spec).1;
             reply.Ok? && !reply.value.allowed && t2 <= t1 + reply.value.retryMs - 1000
    requires var bad := Borrow(b, t1, key, limits, spec).1.value.limitType.axis;
             var slot, m := Slot(bad, BucketKey(key)), limits.At(bad);
             m >= 0 && (CellAt(b, slot).Some? ==> CellAt(b, slot).value.tokens >= 0) &&
             SnapshotsWithin(MonotoneClock, b.res, slot, m) && Admissible(MonotoneClock, t1, run, slot, m) &&
             ClockAfter(t1, run) <= t2 && NetFlow(b, run, slot) >= 0 &&
             Metered(Split(limits2), bad) && limits2.At(bad) <= m && Clamp(spec2.min.At(bad)) >= Clamp(spec.min.At(bad))
    ensures var later := Borrow(RunBooks(b, run), t2, key, limits2, spec2).1;
            later.Ok? ==> !later.value.allowed
  {
    hide TryConsume, LoadBucket, Borrow, NetFlow, RunBooks, Admissible, SnapshotsWithin, Potential, Gain, RetryAfter;
    RefusedBorrow(b, t1, key, limits, spec);
    var bad := Borrow(b, t1, key, limits, spec).1.value.limitType.axis;
    var slot, m, t := Slot(bad, BucketKey(key)), limits.At(bad), ClockAfter(t1, run);
    var s, need := b.Load(bad, slot.key, limits, t1), Clamp(spec.min.At(bad));
    var b2 := RunBooks(b, run);
    LoadIsFresh(b, bad, slot.key, limits, t1, t1);
    LoadIsSettled(b, slot, limits, t1);
    RunBound(MonotoneClock, b, t1, run, slot, m);
    MonotoneForward(t1, run, slot, m);
    assert s.tokens + Gain(m, t2 - t1) < need * UNIT by {
      if m > 0 {
        RefusedWait(s, t1, need);
        WaitIsTight(s, t1, need, t2);
      } else {
        EmptyBucketStays(s, t1, t2 - t1);
      }
    }
    FullPotentialIsLevel(b, slot, limits, t1);
    TimeFills(CellAt(b2, slot), t, t2, m);
    GainSplits(m, t - t1, t2 - t);
    LoadWithinPotential(b2.Shelf(bad), slot.key, limits2.At(bad), t2, m);
    ShortAxisRefuses(b2, t2, key, limits2, spec2, bad);
  }

  lemma EmptyBucketStays(s: State, nowMs: int, ms: int)
    requires Fresh(s, nowMs) && s.capacity == 0
    ensures s.tokens + Gain(0, ms) == 0
  {
  }

  lemma GainSplits(m: nat, x: nat, y: nat)
    ensures Gain(m, x) + Gain(m, y) == Gain(m, x + y)
  {
  }

  lemma RefusedWait(s: State, nowMs: int, need: nat)
    requires Fresh(s, nowMs) && Whole(s.tokens) < need && s.capacity > 0
    ensures s.tokens < need * UNIT && TryConsume(s, nowMs, need).1.retryMs == RetryAfter(s, need)
    ensures RetryAfter(s, need) >= 1000
  {
    CeilBounds(need * UNIT - s.tokens, s.capacity * 1000);
    PositiveFactor(CeilDiv(need * UNIT - s.tokens, s.capacity * 1000), s.capacity * 1000);
  }

  lemma PositiveFactor(x: int, y: int)
    requires y > 0
    ensures x * y > 0 ==> x > 0
  {
  }

  /** With its own capacity as the rate, the potential of a bucket is its level. */
  lemma FullPotentialIsLevel(b: Books, slot: Slot, limits: Amounts, nowMs: int)
    requires 0 < nowMs && WrittenBy(b, nowMs) && limits.At(slot.axis) >= 0
    ensures PotentialAt(b, nowMs, slot, limits.At(slot.axis)) ==
            Max(0, b.Load(slot.axis, slot.key, limits, nowMs).tokens)
  {
  }
}
