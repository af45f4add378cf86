/** What a pool holds of one bucket's credits, and how each of its steps changes that. */
module PoolLedger {
  import opened Quota
  import opened StoreSpec
  import opened StoreLedger
  import opened PoolSpec
  import opened Sums

  /** Lease balance under a slot. */
  function LeaseOf(leases: map<string, Lease>, slot: Slot): int {
    if slot.key in leases then leases[slot.key].balance.At(slot.axis) else 0
  }

  /** Lease balance plus what local reservations hold. */
  ghost function Stock(p: Pool, slot: Slot): int {
    LeaseOf(p.leases, slot) + Holds(p.res, slot)
  }

  /** Balances are never negative and reservations never hold negative amounts. */
  ghost predicate Sound(p: Pool) {
    (forall k | k in p.leases :: p.leases[k].balance.NonNegative()) &&
    (forall id | id in p.res :: SoundReservation(p.res[id]))
  }

  predicate SoundReservation(r: Reservation) {
    r.split == Split(r.limits) &&
    r.reserved.NonNegative() && r.actual.NonNegative() && r.last.overshoot.NonNegative() &&
    r.last.overshoot == Masked(r.split, r.last.overshoot).(rpm := 0) &&
      (r.status != Settled ==> r.last.overshoot == ZERO)
  }

  // ----- credits that a step lets go of

  /** The balance of a lapsed lease that a lookup deletes. */
  function StaleBalance(p: Pool, k: string, nowMs: int, slot: Slot): int {
    if k == slot.key && k in p.leases && Lapsed(p.leases[k], nowMs) then p.leases[k].balance.At(slot.axis) else 0
  }

  ghost function ExpiredHolds(p: Pool, nowMs: int, slot: Slot): int {
    Holds(ExpiredPart(p.res, nowMs), slot)
  }

  /** The hold of a reservation whose id is written again. */
  function OverwrittenHold(p: Pool, nowMs: int, id: string, slot: Slot): int {
    var live := Unexpired(p.res, nowMs);
    if id in live then HoldOn(slot)(live[id]) else 0
  }

  lemma SweepStock(p: Pool, k: string, nowMs: int, slot: Slot)
    ensures Stock(Swept(p, k, nowMs), slot) == Stock(p, slot) - StaleBalance(p, k, nowMs, slot)
    ensures Sound(p) ==> Sound(Swept(p, k, nowMs))
  {
  }

  lemma PurgeStock(p: Pool, nowMs: int, slot: Slot)
    ensures Stock(PurgedPool(p, nowMs), slot) == Stock(p, slot) - ExpiredHolds(p, nowMs, slot)
    ensures Sound(p) ==> Sound(PurgedPool(p, nowMs))
  {
    PurgeSplitsHolds(p.res, nowMs, slot);
  }

  lemma CreditStock(p: Pool, nowMs: int, key: Key, limits: Amounts, got: Amounts, slot: Slot)
    requires Sound(p) && got.NonNegative()
    ensures Sound(CreditLease(p, nowMs, key, limits, got))
    ensures Stock(CreditLease(p, nowMs, key, limits, got), slot) ==
            Stock(p, slot) - StaleBalance(p, BucketKey(key), nowMs, slot) +
            (if BucketKey(key) == slot.key then got.At(slot.axis) else 0)
  {
  }

  /** A debit moves credits from the lease into the new reservation; a miss moves nothing. */
  lemma DebitStock(p: Pool, nowMs: int, key: Key, limits: Amounts, cost: Amounts, id: string, slot: Slot)
    requires Sound(p) && cost.NonNegative()
    ensures var (q, decision) := TryDebit(p, nowMs, key, limits, cost, id);
            Sound(q) &&
            Stock(q, slot) ==
              Stock(p, slot) - ExpiredHolds(p, nowMs, slot) - StaleBalance(p, BucketKey(key), nowMs, slot)
                              - (if decision.Some? then OverwrittenHold(p, nowMs, id, slot) else 0)
  {
    hide Holds, Swept, PurgedPool, StaleBalance, ExpiredHolds, Shown, Unexpired;
    var k, split := BucketKey(key), Split(limits);
    PreparedStock(p, nowMs, k, slot);
    var mid := Prepared(p, nowMs, k);
    var (q, decision) := TryDebit(p, nowMs, key, limits, cost, id);
    if decision.Some? {
      HoldsUpdate(mid.res, id, q.res[id], slot);
      MaskedAt(split, cost, slot.axis);
    }
  }

  lemma PurgeKeepsLeases(p: Pool, k: string, nowMs: int, slot: Slot)
    ensures StaleBalance(PurgedPool(p, nowMs), k, nowMs, slot) == StaleBalance(p, k, nowMs, slot)
    ensures Swept(PurgedPool(p, nowMs), k, nowMs).res == Unexpired(p.res, nowMs)
    ensures k in Swept(PurgedPool(p, nowMs), k, nowMs).leases ==>
              Live(p, k, nowMs) && Swept(PurgedPool(p, nowMs), k, nowMs).leases[k] == p.leases[k]
  {
  }

  lemma HoldsUpdate(res: map<string, Reservation>, id: string, r: Reservation, slot: Slot)
    ensures Holds(res[id := r], slot) ==
            Holds(res, slot) + HoldOn(slot)(r) - (if id in res then HoldOn(slot)(res[id]) else 0)
  {
    SumUpdate(res, id, r, HoldOn(slot));
  }

  /** A step that writes one lease and one reservation changes the stock by what those two change. */
  lemma WriteStock(p: Pool, k: string, lease: Lease, id: string, r: Reservation, slot: Slot)
    requires Sound(p) && lease.balance.NonNegative() && SoundReservation(r)
    ensures var q := p.(leases := p.leases[k := lease], res := p.res[id := r]);
            Sound(q) &&
            Stock(q, slot) == Stock(p, slot) + HoldOn(slot)(r) - (if id in p.res then HoldOn(slot)(p.res[id]) else 0)
                              + (if k == slot.key then lease.balance.At(slot.axis) - LeaseOf(p.leases, slot) else 0)
  {
    hide Holds, HoldOn, SoundReservation;
    HoldsUpdate(p.res, id, r, slot);
  }

  lemma SameStock(p: Pool, q: Pool, slot: Slot)
    requires p.leases == q.leases && p.res == q.res
    ensures Stock(p, slot) == Stock(q, slot) && (Sound(p) ==> Sound(q))
  {
  }

  lemma MaskedAt(split: bool, x: Amounts, a: Axis)
    ensures Masked(split, x).At(a) == if Metered(split, a) then x.At(a) else 0
  {
  }

  /** Whether a local settlement or refund gets as far as the lease. */
  predicate ActsOn(p: Pool, nowMs: int, id: string, split: bool) {
    var live := Unexpired(p.res, nowMs);
    id in live && live[id].status == Pending && live[id].split == split
  }

  /** The pool after the purge and the sweep a settlement or refund starts with. */
  function Prepared(p: Pool, nowMs: int, k: string): Pool {
    Swept(PurgedPool(p, nowMs), k, nowMs)
  }

  /** What a local settlement writes. */
  lemma SettleShape(p: Pool, nowMs: int, id: string, split: bool, actual: Amounts)
    requires ActsOn(p, nowMs, id, split)
    ensures var q := SettleLocal(p, nowMs, id, split, actual).0;
            var r := p.res[id];
            var k := BucketKey(r.key);
            var mid := Prepared(p, nowMs, k);
            var before := WorkingLease(mid, r, nowMs).balance;
            var spent := Masked(split, actual.Clamped()).(rpm := 0);
            k in q.leases && id in q.res &&
            q.leases == mid.leases[k := q.leases[k]] && q.res == mid.res[id := q.res[id]] &&
            q.res[id] ==
              r.(status := Settled, actual := spent, last := q.res[id].last, expiresAt := nowMs + RESERVATION_TTL) &&
            forall a: Axis ::
              q.leases[k].balance.At(a) == DeltaOn(r, before, spent, a).0 &&
              q.res[id].last.overshoot.At(a) == DeltaOn(r, before, spent, a).1
  {
    hide LocalDelta, Shown, Swept;
    PurgedRes(p, nowMs);
    SweptView(PurgedPool(p, nowMs), BucketKey(p.res[id].key), nowMs);
  }

  /** Settling moves credits between the lease and the reservation, and neither makes nor loses any. */
  lemma SettleStock(p: Pool, nowMs: int, id: string, split: bool, actual: Amounts, slot: Slot)
    requires Sound(p)
    ensures var q := SettleLocal(p, nowMs, id, split, actual).0;
            Sound(q) &&
            Stock(q, slot) == Stock(p, slot) - ExpiredHolds(p, nowMs, slot)
                              - (if ActsOn(p, nowMs, id, split)
                                 then StaleBalance(p, BucketKey(p.res[id].key), nowMs, slot) else 0)
  {
    PurgeStock(p, nowMs, slot);
    if ActsOn(p, nowMs, id, split) {
      SettleActs(p, nowMs, id, split, actual, slot);
    } else {
      PurgedRes(p, nowMs);
    }
  }

  lemma SettleActs(p: Pool, nowMs: int, id: string, split: bool, actual: Amounts, slot: Slot)
    requires Sound(p) && ActsOn(p, nowMs, id, split)
    ensures var q := SettleLocal(p, nowMs, id, split, actual).0;
            Sound(q) && Stock(q, slot) == Stock(Prepared(p, nowMs, BucketKey(p.res[id].key)), slot)
    ensures Stock(Prepared(p, nowMs, BucketKey(p.res[id].key)), slot) ==
            Stock(p, slot) - ExpiredHolds(p, nowMs, slot) - StaleBalance(p, BucketKey(p.res[id].key), nowMs, slot)
  {
    hide SettleLocal, Stock, LocalDelta, Prepared, StaleBalance, ExpiredHolds, Sound;
    var r := p.res[id];
    var k := BucketKey(r.key);
    PreparedStock(p, nowMs, k, slot);
    SettleShape(p, nowMs, id, split, actual);
    var q, mid := SettleLocal(p, nowMs, id, split, actual).0, Prepared(p, nowMs, k);
    var before, spent := WorkingLease(mid, r, nowMs).balance, Masked(split, actual.Clamped()).(rpm := 0);
    SoundParts(mid, k, id);
    forall a: Axis
      ensures q.leases[k].balance.At(a) >= 0 && q.res[id].last.overshoot.At(a) >= 0
    {
      DeltaConserves(before.At(a), r.reserved.At(a), spent.At(a));
    }
    ByAxis(q.leases[k].balance);
    ByAxis(q.res[id].last.overshoot);
    OvershootInMode(q.res[id]);
    WriteStock(mid, k, q.leases[k], id, q.res[id], slot);
    SameStock(mid.(leases := mid.leases[k := q.leases[k]], res := mid.res[id := q.res[id]]), q, slot);
    DeltaConserves(before.At(slot.axis), r.reserved.At(slot.axis), spent.At(slot.axis));
  }

  lemma SoundParts(p: Pool, k: string, id: string)
    requires Sound(p)
    ensures k in p.leases ==> p.leases[k].balance.NonNegative()
    ensures id in p.res ==> SoundReservation(p.res[id])
  {
  }

  lemma OvershootInMode(r: Reservation)
    requires forall a | a !in TokenAxes(r.split) :: r.last.overshoot.At(a) == 0
    ensures r.last.overshoot == Masked(r.split, r.last.overshoot).(rpm := 0)
  {
    if r.split {
      assert r.last.overshoot.At(Tpm) == 0 && r.last.overshoot.At(Rpm) == 0;
    } else {
      assert r.last.overshoot.At(Itpm) == 0 && r.last.overshoot.At(Otpm) == 0 && r.last.overshoot.At(Rpm) == 0;
    }
  }

  lemma ByAxis(x: Amounts)
    ensures (forall a: Axis :: x.At(a) >= 0) ==> x.NonNegative()
  {
    if forall a: Axis :: x.At(a) >= 0 {
      assert x.At(Rpm) >= 0 && x.At(Tpm) >= 0 && x.At(Itpm) >= 0 && x.At(Otpm) >= 0;
    }
  }

  lemma PreparedStock(p: Pool, nowMs: int, k: string, slot: Slot)
    requires Sound(p)
    ensures var mid := Prepared(p, nowMs, k);
            Sound(mid) && mid.res == Unexpired(p.res, nowMs) && (k in mid.leases ==> mid.leases[k] == p.leases[k]) &&
            (k in mid.leases <==> Live(p, k, nowMs)) &&
            Stock(mid, slot) == Stock(p, slot) - ExpiredHolds(p, nowMs, slot) - StaleBalance(p, k, nowMs, slot)
  {
    PurgeStock(p, nowMs, slot);
    SweepStock(PurgedPool(p, nowMs), k, nowMs, slot);
    PurgeKeepsLeases(p, k, nowMs, slot);
    PurgedRes(p, nowMs);
    SweptView(PurgedPool(p, nowMs), k, nowMs);
  }

  lemma PurgedRes(p: Pool, nowMs: int)
    ensures PurgedPool(p, nowMs).res == Unexpired(p.res, nowMs) && PurgedPool(p, nowMs).leases == p.leases
    ensures PurgedPool(p, nowMs).cfg == p.cfg && PurgedPool(p, nowMs).deny == p.deny
  {
  }

  lemma DeltaConserves(balance: nat, reserved: nat, actual: nat)
    ensures var (after, overshoot, _) := LocalDelta(balance, reserved, actual);
            after >= 0 && overshoot >= 0 && after + actual - overshoot == balance + reserved
  {
  }

  lemma RefundStock(p: Pool, nowMs: int, id: string, slot: Slot)
    requires Sound(p)
    ensures var q := RefundLocal(p, nowMs, id).0;
            Sound(q) &&
            Stock(q, slot) == Stock(p, slot) - ExpiredHolds(p, nowMs, slot)
                              - (if id in p.res && ActsOn(p, nowMs, id, p.res[id].split)
                                 then StaleBalance(p, BucketKey(p.res[id].key), nowMs, slot) else 0)
  {
    PurgeStock(p, nowMs, slot);
    if id in p.res && ActsOn(p, nowMs, id, p.res[id].split) {
      RefundActs(p, nowMs, id, slot);
    } else {
      PurgedRes(p, nowMs);
    }
  }

  lemma RefundActs(p: Pool, nowMs: int, id: string, slot: Slot)
    requires Sound(p) && id in p.res && ActsOn(p, nowMs, id, p.res[id].split)
    ensures var q := RefundLocal(p, nowMs, id).0;
            Sound(q) && Stock(q, slot) == Stock(Prepared(p, nowMs, BucketKey(p.res[id].key)), slot)
    ensures Stock(Prepared(p, nowMs, BucketKey(p.res[id].key)), slot) ==
            Stock(p, slot) - ExpiredHolds(p, nowMs, slot) - StaleBalance(p, BucketKey(p.res[id].key), nowMs, slot)
  {
    hide Stock, Swept, StaleBalance, ExpiredHolds, Sound;
    var r := p.res[id];
    var k := BucketKey(r.key);
    PreparedStock(p, nowMs, k, slot);
    var q, mid := RefundLocal(p, nowMs, id).0, Prepared(p, nowMs, k);
    SoundParts(mid, k, id);
    WriteStock(mid, k, q.leases[k], id, q.res[id], slot);
    SameStock(mid.(leases := mid.leases[k := q.leases[k]], res := mid.res[id := q.res[id]]), q, slot);
    MaskedAt(r.split, r.reserved, slot.axis);
  }

  /** The grant that ApplyDeficit adds to the lease. */
  function AppliedGrant(p: Pool, nowMs: int, id: string, split: bool, got: Amounts, slot: Slot): int {
    if id in p.res && BucketKey(p.res[id].key) == slot.key && Live(p, slot.key, nowMs) && slot.axis in TokenAxes(split)
    then got.At(slot.axis) else 0
  }

  /** Applying a deficit grant puts the whole grant on top of what the pool had, whatever was in the lease. */
  lemma ApplyStock(p: Pool, nowMs: int, id: string, split: bool, got: Amounts, slot: Slot)
    requires Sound(p) && got.NonNegative()
    ensures var q := ApplyDeficit(p, nowMs, id, split, got);
            Sound(q) &&
            Stock(q, slot) == Stock(p, slot) + AppliedGrant(p, nowMs, id, split, got, slot)
                              - (if id in p.res then StaleBalance(p, BucketKey(p.res[id].key), nowMs, slot) else 0)
  {
    if id in p.res {
      var r := p.res[id];
      var k := BucketKey(r.key);
      SweepStock(p, k, nowMs, slot);
      SweptView(p, k, nowMs);
      if Live(p, k, nowMs) {
        ApplyActs(p, nowMs, id, split, got, slot);
      }
    }
  }

  lemma AbsorbConserves(balance: nat, got: nat, over: nat)
    ensures var (after, left) := Absorb(balance, got, over);
            after >= 0 && left >= 0 && after - left == balance + got - over
  {
  }

  lemma ApplyActs(p: Pool, nowMs: int, id: string, split: bool, got: Amounts, slot: Slot)
    requires Sound(p) && got.NonNegative() && id in p.res && Live(p, BucketKey(p.res[id].key), nowMs)
    ensures var q := ApplyDeficit(p, nowMs, id, split, got);
            Sound(q) &&
            Stock(q, slot) == Stock(Swept(p, BucketKey(p.res[id].key), nowMs), slot) +
              AppliedGrant(p, nowMs, id, split, got, slot)
  {
    hide Stock, Swept, Absorb, StaleBalance, Sound;
    var q := ApplyDeficit(p, nowMs, id, split, got);
    var r := p.res[id];
    var k := BucketKey(r.key);
    SweepStock(p, k, nowMs, slot);
    SweptView(p, k, nowMs);
    var mid := Swept(p, k, nowMs);
    SoundParts(mid, k, id);
    var had, over := p.leases[k].balance, r.last.overshoot;
    if split {
      AbsorbConserves(had.itpm, got.itpm, over.itpm);
      AbsorbConserves(had.otpm, got.otpm, over.otpm);
      AbsorbNothing(had.itpm, got.itpm);
      AbsorbNothing(had.otpm, got.otpm);
    } else {
      AbsorbConserves(had.tpm, got.tpm, over.tpm);
      AbsorbNothing(had.tpm, got.tpm);
    }
    WriteStock(mid, k, q.leases[k], id, q.res[id], slot);
  }

  lemma AbsorbNothing(balance: nat, got: nat)
    ensures Absorb(balance, got, 0) == (balance + got, 0)
  {
  }

  lemma SweptView(p: Pool, k: string, nowMs: int)
    ensures var q := Swept(p, k, nowMs);
            q.res == p.res && q.cfg == p.cfg && (k in q.leases <==> Live(p, k, nowMs)) &&
            (k in q.leases ==> q.leases[k] == p.leases[k])
  {
  }

  /** Closing empties the live leases into the snapshot. */
  lemma SnapshotStock(p: Pool, nowMs: int, slot: Slot)
    requires Sound(p)
    ensures var (q, out) := Snapshot(p, nowMs);
            Sound(q) && Stock(q, slot) + LeaseOf(out, slot) == Stock(p, slot)
  {
  }
}
