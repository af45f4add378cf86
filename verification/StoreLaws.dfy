/** Laws of the store's calls: admission, refunds and settlements. */
module StoreLaws {
  import opened Quota
  import opened Bucket
  import opened BucketLaws
  import opened StoreSpec
  import opened StoreLedger

  /** Every stored bucket was written at or before this instant. */
  predicate WrittenBy(b: Books, nowMs: int) {
    forall a: Axis, k | k in b.Shelf(a) :: b.Shelf(a)[k].lastMs <= nowMs
  }

  /** A bucket just stored loads as its refill. */
  lemma LoadStored(b: Books, slot: Slot, s: State, limits: Amounts, nowMs: int)
    requires CellAt(b, slot) == Some(ToCell(s)) && s.lastMs != 0 && s.capacity == limits.At(slot.axis)
    ensures b.Load(slot.axis, slot.key, limits, nowMs) == Refill(s, nowMs)
  {
  }

  lemma LoadIsFresh(b: Books, a: Axis, k: string, limits: Amounts, t1: int, t2: int)
    requires 0 < t1 <= t2 && WrittenBy(b, t1)
    ensures Fresh(b.Load(a, k, limits, t1), t1)
    ensures Refill(b.Load(a, k, limits, t1), t2) == b.Load(a, k, limits, t2)
    ensures b.Load(a, k, limits, t1).capacity == limits.At(a)
  {
    var shelf := b.Shelf(a);
    var s := if k !in shelf || shelf[k].lastMs == 0 then State(0, 0, limits.At(a))
             else State(shelf[k].tokens, shelf[k].lastMs, limits.At(a));
    RefillTwice(s, t1, t2);
  }

  lemma SameLoad(b: Books, b1: Books, slot: Slot, limits: Amounts, nowMs: int)
    requires CellAt(b, slot) == CellAt(b1, slot)
    ensures b.Load(slot.axis, slot.key, limits, nowMs) == b1.Load(slot.axis, slot.key, limits, nowMs)
  {
  }

  predicate Admits(reply: Result<Decision>) {
    reply.Ok? && reply.value.allowed
  }

  /** Refunding an admitted request, any time before the reservation expires, leaves every bucket as if the
      request had never come. */
  lemma RefundUndoesCheck(b: Books, t1: int, key: Key, limits: Amounts, cost: Amounts, id: string, t2: int, slot: Slot)
    requires 0 < t1 <= t2 <= t1 + RESERVATION_TTL && WrittenBy(b, t1)
    requires Admits(Check(b, t1, key, limits, cost, id).1)
    ensures var b1 := Check(b, t1, key, limits, cost, id).0;
            var (b2, reply) := Refund(b1, t2, id);
            reply == Ok(()) &&
            if Touches(slot, key, Split(limits))
            then b2.Load(slot.axis, slot.key, limits, t2) == b.Load(slot.axis, slot.key, limits, t2)
            else CellAt(b2, slot) == CellAt(b, slot)
  {
    hide TryConsume, Credit, LoadBucket, Refund, Check, CellIn, Refill;
    var b1 := Check(b, t1, key, limits, cost, id).0;
    var b2 := Refund(b1, t2, id).0;
    AdmittedIsPending(b, t1, key, limits, cost, id, t2);
    RefundReplies(b1, t2, id);
    CheckWrites(b, t1, key, limits, cost, id, slot);
    RefundWrites(b1, t2, id, slot);
    if Touches(slot, key, Split(limits)) {
      LoadIsFresh(b, slot.axis, slot.key, limits, t1, t2);
      var s, c := b.Load(slot.axis, slot.key, limits, t1), Clamp(cost.At(slot.axis));
      var s1 := TryConsume(s, t1, c).0;
      ConsumeMoves(s, t1, c);
      ConsumeKeepsCapacity(s, t1, c);
      MaskedKeepsMetered(Split(limits), limits, slot.axis);
      MaskedKeepsMetered(Split(limits), cost.Clamped(), slot.axis);
      RefundUndoes(s, t1, c, t2);
      LoadStored(b1, slot, s1, limits, t2);
      RefillIdempotent(s1, t1, t2);
      CreditOfRefill(s1, t2, c);
      assert b1.Load(slot.axis, slot.key, b1.res[id].limits, t2) == Refill(s1, t2);
      assert b1.res[id].reserved.At(slot.axis) == c;
      RefillKeeps(s, t2);
      LoadStored(b2, slot, Credit(s1, t2, c), limits, t2);
      RefillIdempotent(s, t1, t2);
    }
  }

  lemma ConsumeKeepsCapacity(s: State, nowMs: int, cost: int)
    ensures TryConsume(s, nowMs, cost).0.capacity == s.capacity
  {
  }

  lemma RefillKeeps(s: State, nowMs: int)
    ensures Refill(s, nowMs).capacity == s.capacity && Refill(s, nowMs).lastMs == nowMs
  {
  }

  lemma RefillIdempotent(s: State, t1: int, t2: int)
    requires 0 < t1 <= t2 && s.lastMs <= t1
    ensures Refill(Refill(s, t2), t2) == Refill(s, t2)
  {
    RefillTwice(s, t2, t2);
  }

  lemma CreditOfRefill(s: State, nowMs: int, amount: int)
    requires 0 < nowMs && s.lastMs <= nowMs
    ensures Credit(Refill(s, nowMs), nowMs, amount) == Credit(s, nowMs, amount)
  {
    RefillTwice(s, nowMs, nowMs);
  }

  /** An admitted request leaves a pending reservation with its terms, until it expires. */
  lemma AdmittedIsPending(b: Books, t1: int, key: Key, limits: Amounts, cost: Amounts, id: string, t2: int)
    requires Admits(Check(b, t1, key, limits, cost, id).1)
    ensures var b1 := Check(b, t1, key, limits, cost, id).0;
            id in b1.res &&
            (t2 <= t1 + RESERVATION_TTL ==> IsPending(b1, t2, id)) &&
            b1.res[id].key == key && b1.res[id].split == Split(limits) &&
            b1.res[id].limits == Masked(Split(limits), limits) &&
              b1.res[id].reserved == Masked(Split(limits), cost.Clamped())
  {
    hide Check, Masked;
    CheckRecords(b, t1, key, limits, cost, id);
  }

  lemma RefundReplies(b: Books, nowMs: int, id: string)
    requires IsPending(b, nowMs, id)
    ensures Refund(b, nowMs, id).1 == Ok(())
  {
    hide Credit, LoadBucket, Saved;
  }

  predicate AxisAdmits(b: Books, a: Axis, k: string, limits: Amounts, nowMs: int, cost: Amounts) {
    TryConsume(b.Load(a, k, limits, nowMs), nowMs, Clamp(cost.At(a))).1.allowed
  }

  /** All or nothing: a well-formed request is admitted exactly when every axis of its mode has its cost. */
  lemma AdmitsIff(b: Books, nowMs: int, key: Key, limits: Amounts, cost: Amounts, id: string)
    ensures Admits(Check(b, nowMs, key, limits, cost, id).1) <==>
            ValidLimits(limits) && key.subject != "" && id != "" &&
            forall a | Metered(Split(limits), a) :: AxisAdmits(b, a, BucketKey(key), limits, nowMs, cost)
  {
    hide TryConsume, LoadBucket, Saved, Shown, Each;
    var k := BucketKey(key);
    var live, charge := Purged(b, nowMs), cost.Clamped();
    assert forall a ::
        Consumed(live, a, k, limits, nowMs, charge).1.allowed == AxisAdmits(b, a, k, limits, nowMs, cost);
    assert Metered(Split(limits), Rpm);
    if Split(limits) {
      assert Metered(true, Itpm) && Metered(true, Otpm);
    } else {
      assert Metered(false, Tpm);
    }
  }

  /** Settling for no more than was reserved leaves every bucket as if the actual amounts had been
      requested in the first place (and they would have been admitted). */
  lemma SettleIsTheRightGuess(b: Books, t1: int, key: Key, limits: Amounts, cost: Amounts, id: string,
                              t2: int, actual: Amounts, slot: Slot)
    requires 0 < t1 <= t2 <= t1 + RESERVATION_TTL && WrittenBy(b, t1)
    requires Admits(Check(b, t1, key, limits, cost, id).1)
    requires forall a | Metered(Split(limits), a) && a != Rpm :: Clamp(actual.At(a)) <= Clamp(cost.At(a))
    ensures var guess := actual.(rpm := cost.rpm);
            var guessed := Check(b, t1, key, limits, guess, id);
            var (b2, reply) := Settle(Check(b, t1, key, limits, cost, id).0, t2, id, Split(limits), actual);
            Admits(guessed.1) && Admits(reply) &&
            if Touches(slot, key, Split(limits))
            then b2.Load(slot.axis, slot.key, limits, t2) == guessed.0.Load(slot.axis, slot.key, limits, t2)
            else CellAt(b2, slot) == CellAt(guessed.0, slot)
  {
    hide TryConsume, Credit, LoadBucket, Settle, Check, CellIn, Refill, SettleAxis;
    var split, k := Split(limits), BucketKey(key);
    var guess := actual.(rpm := cost.rpm);
    var b1 := Check(b, t1, key, limits, cost, id).0;
    var g1 := Check(b, t1, key, limits, guess, id).0;
    var b2 := Settle(b1, t2, id, split, actual).0;
    AdmitsIff(b, t1, key, limits, cost, id);
    forall a | Metered(split, a)
      ensures AxisAdmits(b, a, k, limits, t1, guess)
    {
      assert AxisAdmits(b, a, k, limits, t1, cost);
      LoadIsFresh(b, a, k, limits, t1, t2);
      ReserveThenCredit(b.Load(a, k, limits, t1), t1, t2, Clamp(cost.At(a)), Clamp(guess.At(a)));
    }
    AdmitsIff(b, t1, key, limits, guess, id);
    AdmittedIsPending(b, t1, key, limits, cost, id, t2);
    SettleReplies(b1, t2, id, actual);
    CheckWrites(b, t1, key, limits, cost, id, slot);
    CheckWrites(b, t1, key, limits, guess, id, slot);
    SettleWrites(b1, t2, id, split, actual, slot);
    if Touches(slot, key, split) {
      MaskedKeepsMetered(split, limits, slot.axis);
      MaskedKeepsMetered(split, cost.Clamped(), slot.axis);
      var r, a := Clamp(cost.At(slot.axis)), Clamp(guess.At(slot.axis));
      assert b1.res[id].reserved.At(slot.axis) == r;
      SettledLevel(b, b1, g1, b2, slot, limits, t1, t2, r, a, b1.res[id].limits);
    }
  }

  /** The bucket side of SettleIsTheRightGuess. */
  lemma SettledLevel(b: Books, b1: Books, g1: Books, b2: Books, slot: Slot, limits: Amounts, t1: int, t2: int,
                     r: nat, a: nat, snapshot: Amounts)
    requires 0 < t1 <= t2 && WrittenBy(b, t1) && a <= r && snapshot.At(slot.axis) == limits.At(slot.axis)
    requires var s := b.Load(slot.axis, slot.key, limits, t1);
             TryConsume(s, t1, r).1.allowed &&
             CellAt(b1, slot) == Some(ToCell(TryConsume(s, t1, r).0)) &&
             CellAt(g1, slot) == Some(ToCell(TryConsume(s, t1, a).0))
    requires if slot.axis == Rpm then a == r && CellAt(b2, slot) == CellAt(b1, slot)
             else CellAt(b2, slot) == Some(ToCell(SettleAxis(b1.Load(slot.axis, slot.key, snapshot, t2), t2, r, a).0))
    ensures b2.Load(slot.axis, slot.key, limits, t2) == g1.Load(slot.axis, slot.key, limits, t2)
  {
    hide TryConsume, Credit, LoadBucket, CellIn, Refill;
    LoadIsFresh(b, slot.axis, slot.key, limits, t1, t2);
    var s := b.Load(slot.axis, slot.key, limits, t1);
    ReserveThenCredit(s, t1, t2, r, a);
    ConsumeMoves(s, t1, r);
    ConsumeMoves(s, t1, a);
    ConsumeKeepsCapacity(s, t1, r);
    ConsumeKeepsCapacity(s, t1, a);
    var s1, g := TryConsume(s, t1, r).0, TryConsume(s, t1, a).0;
    LoadStored(b1, slot, s1, limits, t2);
    LoadStored(g1, slot, g, limits, t2);
    if slot.axis != Rpm {
      assert b1.Load(slot.axis, slot.key, snapshot, t2) == Refill(s1, t2);
      CreditOfRefill(s1, t2, r - a);
      RefillIdempotent(g, t1, t2);
      RefillKeeps(g, t2);
      LoadStored(b2, slot, Refill(g, t2), limits, t2);
    } else {
      LoadStored(b2, slot, s1, limits, t2);
    }
  }

  lemma SettleReplies(b: Books, nowMs: int, id: string, actual: Amounts)
    requires IsPending(b, nowMs, id)
    ensures Admits(Settle(b, nowMs, id, b.res[id].split, actual).1)
  {
    hide SettleAxis, LoadBucket, Saved, Shown, Each;
  }

  /** Settling beyond the reservation takes the excess up to the reported overshoot out of the bucket;
      when there is an overshoot less than one token is left. */
  lemma SettleBeyondReserve(b: Books, nowMs: int, id: string, actual: Amounts, slot: Slot)
    requires 0 < nowMs && IsPending(b, nowMs, id) && Touches(slot, b.res[id].key, b.res[id].split) && slot.axis != Rpm
    requires b.res[id].reserved.At(slot.axis) < Clamp(actual.At(slot.axis))
    requires CellAt(b, slot).Some? ==> 0 <= CellAt(b, slot).value.tokens && CellAt(b, slot).value.lastMs <= nowMs
    ensures var r := b.res[id];
            var (b2, reply) := Settle(b, nowMs, id, r.split, actual);
            reply.Ok? && CellAt(b2, slot).Some? &&
            var excess := Clamp(actual.At(slot.axis)) - r.reserved.At(slot.axis);
            var overshoot := reply.value.overshoot.At(slot.axis);
            var before := b.Load(slot.axis, slot.key, r.limits, nowMs).tokens;
            var after := CellAt(b2, slot).value.tokens;
            0 <= overshoot <= excess &&
            after == before - (excess - overshoot) * UNIT &&
            (overshoot > 0 ==> 0 <= after < UNIT)
  {
    hide Settle, LoadBucket;
    var r := b.res[id];
    SettleWrites(b, nowMs, id, r.split, actual, slot);
    var s := b.Load(slot.axis, slot.key, r.limits, nowMs);
    assert Refill(s, nowMs) == s && s.tokens >= 0 by {
      LoadIsSettled(b, slot, r.limits, nowMs);
    }
  }

  lemma LoadIsSettled(b: Books, slot: Slot, limits: Amounts, nowMs: int)
    requires 0 < nowMs
    requires CellAt(b, slot).Some? ==> 0 <= CellAt(b, slot).value.tokens && CellAt(b, slot).value.lastMs <= nowMs
    ensures var s := b.Load(slot.axis, slot.key, limits, nowMs);
            Refill(s, nowMs) == s && s.tokens >= 0
  {
    if CellAt(b, slot).Some? && limits.At(slot.axis) > 0 {
      GainIsMonotone(limits.At(slot.axis), limits.At(slot.axis), nowMs - CellAt(b, slot).value.lastMs);
    }
  }
}
