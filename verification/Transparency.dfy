/** A refunded request leaves the store as if it had never come, up to what the cap gives back, whatever admitted
    traffic there was in between. */
module Transparency {
  import opened Quota
  import opened Bucket
  import opened BucketLaws
  import opened StoreSpec
  import opened StoreLedger
  import opened StoreRuns
  import opened StoreLaws
  import opened Lifecycle

  /** The request that is refunded in the end. */
  datatype Request = Request(key: Key, limits: Amounts, cost: Amounts, id: string)

  predicate Charged(r: Request, slot: Slot) {
    Touches(slot, r.key, Split(r.limits))
  }

  function CostOn(r: Request, slot: Slot): nat {
    Clamp(r.cost.At(slot.axis))
  }

  // ----- two stores, one of which has seen the request

  predicate WrittenAt(b: Books, slot: Slot, t: int) {
    CellAt(b, slot).Some? ==> CellAt(b, slot).value.lastMs <= t
  }

  function LoadOf(b: Books, r: Request, slot: Slot, t: int): State {
    b.Load(slot.axis, slot.key, r.limits, t)
  }

  /** A bucket the request was charged on is lower by at most its cost; every other one is the same. */
  predicate SlotFollows(low: Books, high: Books, r: Request, slot: Slot, t: int) {
    if Charged(r, slot) then
      0 < t && 0 <= r.limits.At(slot.axis) && WrittenAt(low, slot, t) && WrittenAt(high, slot, t) &&
      LoadOf(high, r, slot, t).tokens - CostOn(r, slot) * UNIT <= LoadOf(low, r, slot, t).tokens <=
        LoadOf(high, r, slot, t).tokens
    else CellAt(low, slot) == CellAt(high, slot)
  }

  /** A reservation that has not expired, but for the decision it was settled with, which shows levels. */
  function LiveAt(b: Books, id: string, t: int): Option<Reservation> {
    if id in b.res && t <= b.res[id].expiresAt then Some(b.res[id].(last := NO_DECISION)) else None
  }

  /** The limits of the request's buckets are the same throughout. */
  predicate KeepsLimits(r: Request, key: Key, split: bool, limits: Amounts) {
    BucketKey(key) == BucketKey(r.key) ==>
      forall a | Metered(split, a) && Metered(Split(r.limits), a) :: limits.At(a) == r.limits.At(a)
  }

  predicate RecordsKeepLimits(b: Books, r: Request) {
    forall id | id in b.res :: KeepsLimits(r, b.res[id].key, b.res[id].split, b.res[id].limits)
  }

  ghost predicate Follows(low: Books, high: Books, r: Request, t: int) {
    (forall slot: Slot :: SlotFollows(low, high, r, slot, t)) &&
    (forall id: string | id != r.id :: LiveAt(low, id, t) == LiveAt(high, id, t)) &&
    RecordsKeepLimits(low, r)
  }

  /** Admitted traffic: checks of the request's key are admitted and settlements do not go beyond what was reserved;
      other keys do as they like.  Nothing is borrowed, and nobody else uses the request's id. */
  predicate Proceeds(low: Books, e: Timed, r: Request) {
    match e.call
    case CheckCall(key, limits, cost, id) =>
      id != r.id && KeepsLimits(r, key, Split(limits), limits) &&
      (BucketKey(key) == BucketKey(r.key) ==> Admits(Check(low, e.nowMs, key, limits, cost, id).1))
    case SettleCall(id, split, actual) =>
      id != r.id &&
      (IsPending(low, e.nowMs, id) && BucketKey(low.res[id].key) == BucketKey(r.key) ==>
         forall a | a in TokenAxes(split) && Metered(Split(r.limits), a) ::
           Clamp(actual.At(a)) <= low.res[id].reserved.At(a))
    case RefundCall(id) => id != r.id
    case ReturnCall(key, limits, _) => KeepsLimits(r, key, Split(limits), limits)
    case BorrowCall(_, _, _) => false
  }

  // ----- one bucket

  lemma LoadLater(b: Books, r: Request, slot: Slot, t1: int, t2: int)
    requires 0 < t1 <= t2 && WrittenAt(b, slot, t1)
    ensures Fresh(LoadOf(b, r, slot, t1), t1) && LoadOf(b, r, slot, t1).capacity == r.limits.At(slot.axis)
    ensures Refill(LoadOf(b, r, slot, t1), t2) == LoadOf(b, r, slot, t2)
  {
    var shelf, k, cap := b.Shelf(slot.axis), slot.key, r.limits.At(slot.axis);
    var s := if k !in shelf || shelf[k].lastMs == 0 then State(0, 0, cap)
      else State(shelf[k].tokens, shelf[k].lastMs, cap);
    RefillTwice(s, t1, t2);
  }

  /** Time passes. */
  lemma FollowsLater(low: Books, high: Books, r: Request, slot: Slot, t1: int, t2: int)
    requires SlotFollows(low, high, r, slot, t1) && t1 <= t2
    ensures SlotFollows(low, high, r, slot, t2)
  {
    hide LoadOf, CellAt;
    if Charged(r, slot) {
      LoadLater(low, r, slot, t1, t2);
      LoadLater(high, r, slot, t1, t2);
      RefillNarrows(LoadOf(low, r, slot, t1), LoadOf(high, r, slot, t1), CostOn(r, slot) * UNIT, t1, t2);
    }
  }

  /** The same move on both sides. */
  lemma MoveFollows(low: Books, high: Books, low': Books, high': Books, r: Request, slot: Slot, m: Move)
    requires Charged(r, slot) && SlotFollows(low, high, r, slot, m.atMs)
    requires Goes(LoadOf(low, r, slot, m.atMs), m)
    requires CellAt(low', slot) == Some(ToCell(Step(LoadOf(low, r, slot, m.atMs), m)))
    requires CellAt(high', slot) == Some(ToCell(Step(LoadOf(high, r, slot, m.atMs), m)))
    ensures SlotFollows(low', high', r, slot, m.atMs)
  {
    hide LoadBucket, Step, CellAt, Goes;
    var t := m.atMs;
    LoadLater(low, r, slot, t, t);
    LoadLater(high, r, slot, t, t);
    var l, h := LoadOf(low, r, slot, t), LoadOf(high, r, slot, t);
    StepNarrows(l, h, CostOn(r, slot) * UNIT, t, m);
    StepKeepsCapacity(l, m);
    StepKeepsCapacity(h, m);
    LoadStored(low', slot, Step(l, m), r.limits, t);
    LoadStored(high', slot, Step(h, m), r.limits, t);
  }

  lemma StepKeepsCapacity(s: State, m: Move)
    ensures Step(s, m).capacity == s.capacity
  {
  }

  // ----- checks

  /** An axis that has a cost in the lower store has it in the other. */
  lemma AxisAlike(low: Books, high: Books, r: Request, key: Key, limits: Amounts, cost: Amounts, a: Axis, t: int)
    requires SlotFollows(low, high, r, Slot(a, BucketKey(key)), t) && 0 < t
    requires KeepsLimits(r, key, Split(limits), limits) && Metered(Split(limits), a)
    ensures var k := BucketKey(key);
            (AxisAdmits(low, a, k, limits, t, cost) ==> AxisAdmits(high, a, k, limits, t, cost)) &&
            (k != BucketKey(r.key) ==>
             (AxisAdmits(high, a, k, limits, t, cost) ==> AxisAdmits(low, a, k, limits, t, cost)))
  {
    hide LoadBucket, TryConsume, CellAt;
    var slot := Slot(a, BucketKey(key));
    if Charged(r, slot) {
      LoadLater(low, r, slot, t, t);
      LoadLater(high, r, slot, t, t);
      if AxisAdmits(low, a, slot.key, limits, t, cost) {
        StepNarrows(LoadOf(low, r, slot, t), LoadOf(high, r, slot, t), CostOn(r, slot) * UNIT, t,
                    Spend(t, Clamp(cost.At(a))));
      }
    } else {
      SameLoad(low, high, slot, limits, t);
    }
  }

  lemma ChecksAlike(low: Books, high: Books, r: Request, t: int, key: Key, limits: Amounts, cost: Amounts, id: string)
    requires Follows(low, high, r, t) && 0 < t && Proceeds(low, Timed(t, CheckCall(key, limits, cost, id)), r)
    ensures Admits(Check(low, t, key, limits, cost, id).1) <==> Admits(Check(high, t, key, limits, cost, id).1)
  {
    hide Check, AxisAdmits, SlotFollows, KeepsLimits, LiveAt;
    AdmitsIff(low, t, key, limits, cost, id);
    AdmitsIff(high, t, key, limits, cost, id);
    forall a | Metered(Split(limits), a)
      ensures AxisAdmits(low, a, BucketKey(key), limits, t, cost) ==>
              AxisAdmits(high, a, BucketKey(key), limits, t, cost)
      ensures BucketKey(key) != BucketKey(r.key) ==>
                (AxisAdmits(high, a, BucketKey(key), limits, t, cost) ==>
                 AxisAdmits(low, a, BucketKey(key), limits, t, cost))
    {
      AxisAlike(low, high, r, key, limits, cost, a, t);
    }
  }

  lemma CheckFollows(low: Books, high: Books, r: Request, t: int, key: Key, limits: Amounts, cost: Amounts, id: string,
                     slot: Slot)
    requires Follows(low, high, r, t) && 0 < t && Proceeds(low, Timed(t, CheckCall(key, limits, cost, id)), r)
    ensures SlotFollows(Check(low, t, key, limits, cost, id).0, Check(high, t, key, limits, cost, id).0, r, slot, t)
  {
    hide Check, LoadBucket, TryConsume, CellIn, LiveAt;
    var low', high' := Check(low, t, key, limits, cost, id).0, Check(high, t, key, limits, cost, id).0;
    ChecksAlike(low, high, r, t, key, limits, cost, id);
    CheckWrites(low, t, key, limits, cost, id, slot);
    CheckWrites(high, t, key, limits, cost, id, slot);
    if Admits(Check(low, t, key, limits, cost, id).1) && Touches(slot, key, Split(limits)) {
      if Charged(r, slot) {
        MoveFollows(low, high, low', high', r, slot, Spend(t, Clamp(cost.At(slot.axis))));
      } else {
        SameLoad(low, high, slot, limits, t);
      }
    } else {
      Untouched(low, high, low', high', r, slot, t);
    }
  }

  lemma Untouched(low: Books, high: Books, low': Books, high': Books, r: Request, slot: Slot, t: int)
    requires SlotFollows(low, high, r, slot, t)
    requires CellAt(low', slot) == CellAt(low, slot) && CellAt(high', slot) == CellAt(high, slot)
    ensures SlotFollows(low', high', r, slot, t)
  {
    hide LoadBucket, CellIn;
    SameLoad(low, low', slot, r.limits, t);
    SameLoad(high, high', slot, r.limits, t);
  }

  // ----- settlements, refunds and returns

  lemma SamePending(low: Books, high: Books, r: Request, t: int, id: string)
    requires Follows(low, high, r, t) && id != r.id
    ensures IsPending(low, t, id) <==> IsPending(high, t, id)
    ensures IsPending(low, t, id) ==> id in low.res && id in high.res
    ensures IsPending(low, t, id) ==> SameTerms(low.res[id], high.res[id]) && low.res[id].actual == high.res[id].actual
    ensures IsPending(low, t, id) ==> KeepsLimits(r, low.res[id].key, low.res[id].split, low.res[id].limits)
  {
    hide SlotFollows, KeepsLimits;
    assert LiveAt(low, id, t) == LiveAt(high, id, t);
  }

  lemma GivesBack(s: State, nowMs: int, reserved: int, actual: int)
    requires Fresh(s, nowMs) && actual <= reserved
    ensures SettleAxis(s, nowMs, reserved, actual).0 == Credit(s, nowMs, reserved - actual)
  {
  }

  lemma SettleFollows(low: Books, high: Books, r: Request, t: int, id: string, split: bool, actual: Amounts, slot: Slot)
    requires Follows(low, high, r, t) && 0 < t && Proceeds(low, Timed(t, SettleCall(id, split, actual)), r)
    ensures SlotFollows(Settle(low, t, id, split, actual).0, Settle(high, t, id, split, actual).0, r, slot, t)
  {
    hide Settle, LoadBucket, SettleAxis, CellIn, LiveAt, Credit, IsPending;
    var low', high' := Settle(low, t, id, split, actual).0, Settle(high, t, id, split, actual).0;
    SamePending(low, high, r, t, id);
    SettleWrites(low, t, id, split, actual, slot);
    SettleWrites(high, t, id, split, actual, slot);
    if IsPending(low, t, id) && low.res[id].split == split && Touches(slot, low.res[id].key, split) &&
      slot.axis != Rpm {
      var rec := low.res[id];
      if Charged(r, slot) {
        LoadLater(low, r, slot, t, t);
        LoadLater(high, r, slot, t, t);
        GivesBack(LoadOf(low, r, slot, t), t, rec.reserved.At(slot.axis), Clamp(actual.At(slot.axis)));
        GivesBack(LoadOf(high, r, slot, t), t, rec.reserved.At(slot.axis), Clamp(actual.At(slot.axis)));
        MoveFollows(low, high, low', high', r, slot, Give(t, rec.reserved.At(slot.axis) - Clamp(actual.At(slot.axis))));
      } else {
        SameLoad(low, high, slot, rec.limits, t);
      }
    } else {
      Untouched(low, high, low', high', r, slot, t);
    }
  }

  lemma ClampedCredit(s: State, nowMs: int, amount: int)
    ensures Credit(s, nowMs, amount) == Credit(s, nowMs, Clamp(amount))
  {
  }

  lemma RefundFollows(low: Books, high: Books, r: Request, t: int, id: string, slot: Slot)
    requires Follows(low, high, r, t) && 0 < t && id != r.id
    ensures SlotFollows(Refund(low, t, id).0, Refund(high, t, id).0, r, slot, t)
  {
    hide Refund, LoadBucket, CellIn, LiveAt, Credit, IsPending;
    var low', high' := Refund(low, t, id).0, Refund(high, t, id).0;
    SamePending(low, high, r, t, id);
    RefundWrites(low, t, id, slot);
    RefundWrites(high, t, id, slot);
    if IsPending(low, t, id) && Touches(slot, low.res[id].key, low.res[id].split) {
      CreditFollows(low, high, low', high', r, slot, t, low.res[id].limits, low.res[id].reserved.At(slot.axis));
    } else {
      Untouched(low, high, low', high', r, slot, t);
    }
  }

  /** The same credit on both sides. */
  lemma CreditFollows(low: Books, high: Books, low': Books, high': Books, r: Request, slot: Slot, t: int,
                      limits: Amounts, amount: int)
    requires SlotFollows(low, high, r, slot, t) && (Charged(r, slot) ==> limits.At(slot.axis) == r.limits.At(slot.axis))
    requires CellAt(low', slot) == Some(ToCell(Credit(low.Load(slot.axis, slot.key, limits, t), t, amount)))
    requires CellAt(high', slot) == Some(ToCell(Credit(high.Load(slot.axis, slot.key, limits, t), t, amount)))
    ensures SlotFollows(low', high', r, slot, t)
  {
    hide LoadBucket, CellIn, Credit;
    if Charged(r, slot) {
      ClampedCredit(LoadOf(low, r, slot, t), t, amount);
      ClampedCredit(LoadOf(high, r, slot, t), t, amount);
      MoveFollows(low, high, low', high', r, slot, Give(t, Clamp(amount)));
    } else {
      SameLoad(low, high, slot, limits, t);
    }
  }

  lemma ReturnFollows(low: Books, high: Books, r: Request, t: int, key: Key, limits: Amounts, add: Amounts, slot: Slot)
    requires Follows(low, high, r, t) && 0 < t && KeepsLimits(r, key, Split(limits), limits)
    ensures SlotFollows(Return(low, t, key, limits, add).0, Return(high, t, key, limits, add).0, r, slot, t)
  {
    hide Return, LoadBucket, CellIn, LiveAt, Credit;
    var low', high' := Return(low, t, key, limits, add).0, Return(high, t, key, limits, add).0;
    ReturnWrites(low, t, key, limits, add, slot);
    ReturnWrites(high, t, key, limits, add, slot);
    if CellAt(low', slot) == CellAt(low, slot) && CellAt(high', slot) == CellAt(high, slot) {
      Untouched(low, high, low', high', r, slot, t);
    } else {
      CreditFollows(low, high, low', high', r, slot, t, limits, add.At(slot.axis));
    }
  }

  // ----- reservations

  lemma CheckRecordsFollow(low: Books, high: Books, r: Request, t: int, key: Key, limits: Amounts, cost: Amounts,
                           newId: string,
                           id: string)
    requires Follows(low, high, r, t) && 0 < t && Proceeds(low, Timed(t, CheckCall(key, limits, cost, newId)), r) &&
             id != r.id
    ensures LiveAt(Check(low, t, key, limits, cost, newId).0, id, t) ==
            LiveAt(Check(high, t, key, limits, cost, newId).0, id, t)
  {
    hide Check, Masked, SlotFollows, KeepsLimits;
    assert LiveAt(low, id, t) == LiveAt(high, id, t);
    ChecksAlike(low, high, r, t, key, limits, cost, newId);
    CheckRecords(low, t, key, limits, cost, newId);
    CheckRecords(high, t, key, limits, cost, newId);
  }

  /** Writing one record after a purge. */
  lemma LiveWrite(b: Books, b': Books, t: int, written: string, rec: Reservation, id: string)
    requires b'.res == Unexpired(b.res, t)[written := rec] && t <= rec.expiresAt
    ensures LiveAt(b', id, t) == if id == written then Some(rec.(last := NO_DECISION)) else LiveAt(b, id, t)
  {
  }

  lemma LivePurge(b: Books, id: string, t: int)
    ensures LiveAt(Purged(b, t), id, t) == LiveAt(b, id, t)
  {
  }

  lemma SettleRecordsFollow(low: Books, high: Books, r: Request, t: int, settled: string, split: bool, actual: Amounts,
                            id: string)
    requires Follows(low, high, r, t) && id != r.id && settled != r.id
    ensures LiveAt(Settle(low, t, settled, split, actual).0, id, t) ==
            LiveAt(Settle(high, t, settled, split, actual).0, id, t)
  {
    hide Settle, Masked, SlotFollows, KeepsLimits, Unexpired, LiveAt, IsPending, Purged;
    assert LiveAt(low, id, t) == LiveAt(high, id, t) && LiveAt(low, settled, t) == LiveAt(high, settled, t);
    SamePending(low, high, r, t, settled);
    SettleRecords(low, t, settled, split, actual);
    SettleRecords(high, t, settled, split, actual);
    LivePurge(low, id, t);
    LivePurge(high, id, t);
    if IsPending(low, t, settled) && low.res[settled].split == split {
      var low', high' := Settle(low, t, settled, split, actual).0, Settle(high, t, settled, split, actual).0;
      LiveWrite(low, low', t, settled, low'.res[settled], id);
      LiveWrite(high, high', t, settled, high'.res[settled], id);
    }
  }

  lemma RefundRecordsFollow(low: Books, high: Books, r: Request, t: int, refunded: string, id: string)
    requires Follows(low, high, r, t) && id != r.id && refunded != r.id
    ensures LiveAt(Refund(low, t, refunded).0, id, t) == LiveAt(Refund(high, t, refunded).0, id, t)
  {
    hide Refund, SlotFollows, KeepsLimits;
    assert LiveAt(low, id, t) == LiveAt(high, id, t);
    SamePending(low, high, r, t, refunded);
    RefundRecords(low, t, refunded);
    RefundRecords(high, t, refunded);
  }

  /** A call does the same to every reservation but the request's own. */
  lemma RecordsFollow(low: Books, high: Books, r: Request, e: Timed, id: string)
    requires Follows(low, high, r, e.nowMs) && 0 < e.nowMs && Proceeds(low, e, r) && id != r.id
    ensures LiveAt(Exec(low, e.nowMs, e.call), id, e.nowMs) == LiveAt(Exec(high, e.nowMs, e.call), id, e.nowMs)
  {
    hide Check, Settle, Refund, Borrow, Return, LiveAt, SlotFollows, RecordsKeepLimits;
    match e.call {
      case CheckCall(key, limits, cost, newId) =>
        CheckRecordsFollow(low, high, r, e.nowMs, key, limits, cost, newId, id);
      case SettleCall(settled, split, actual) => SettleRecordsFollow(low, high, r, e.nowMs, settled, split, actual, id);
      case RefundCall(refunded) => RefundRecordsFollow(low, high, r, e.nowMs, refunded, id);
      case ReturnCall(key, limits, add) =>
        assert LiveAt(low, id, e.nowMs) == LiveAt(high, id, e.nowMs);
        LeaseCallsKeep(low, e.nowMs, key, limits, BorrowSpec(ZERO, ZERO), add);
        LeaseCallsKeep(high, e.nowMs, key, limits, BorrowSpec(ZERO, ZERO), add);
        SameLive(low, Return(low, e.nowMs, key, limits, add).0, id, e.nowMs);
        SameLive(high, Return(high, e.nowMs, key, limits, add).0, id, e.nowMs);
    }
  }

  lemma SameLive(b: Books, b': Books, id: string, t: int)
    requires b.res == b'.res
    ensures LiveAt(b, id, t) == LiveAt(b', id, t)
  {
  }

  lemma LimitsKept(low: Books, r: Request, e: Timed)
    requires RecordsKeepLimits(low, r) && Proceeds(low, e, r)
    ensures RecordsKeepLimits(Exec(low, e.nowMs, e.call), r)
  {
    hide Exec, Masked;
    var low' := Exec(low, e.nowMs, e.call);
    forall id | id in low'.res
      ensures KeepsLimits(r, low'.res[id].key, low'.res[id].split, low'.res[id].limits)
    {
      ReservationOrigin(low, e.nowMs, e.call, id);
      if id !in low.res || !SameTerms(low.res[id], low'.res[id]) {
        MaskedKeepsLimits(r, e.call.key, e.call.limits);
      }
    }
  }

  lemma MaskedKeepsLimits(r: Request, key: Key, limits: Amounts)
    requires KeepsLimits(r, key, Split(limits), limits)
    ensures KeepsLimits(r, key, Split(limits), Masked(Split(limits), limits))
  {
    forall a | Metered(Split(limits), a)
      ensures Masked(Split(limits), limits).At(a) == limits.At(a)
    {
      MaskedKeepsMetered(Split(limits), limits, a);
    }
  }

  // ----- runs

  lemma Later(low: Books, high: Books, r: Request, t1: int, t2: int)
    requires Follows(low, high, r, t1) && t1 <= t2
    ensures Follows(low, high, r, t2)
  {
    hide SlotFollows, RecordsKeepLimits;
    forall slot: Slot
      ensures SlotFollows(low, high, r, slot, t2)
    {
      FollowsLater(low, high, r, slot, t1, t2);
    }
    forall id: string | id != r.id
      ensures LiveAt(low, id, t2) == LiveAt(high, id, t2)
    {
      assert LiveAt(low, id, t1) == LiveAt(high, id, t1);
      StillLive(low, high, id, t1, t2);
    }
  }

  lemma StillLive(low: Books, high: Books, id: string, t1: int, t2: int)
    requires LiveAt(low, id, t1) == LiveAt(high, id, t1) && t1 <= t2
    ensures LiveAt(low, id, t2) == LiveAt(high, id, t2)
  {
    if LiveAt(low, id, t1).Some? {
      assert low.res[id].expiresAt == LiveAt(low, id, t1).value.expiresAt;
      assert high.res[id].expiresAt == LiveAt(high, id, t1).value.expiresAt;
    }
  }

  /** One call, the same on both sides. */
  lemma CallFollows(low: Books, high: Books, r: Request, e: Timed)
    requires Follows(low, high, r, e.nowMs) && 0 < e.nowMs && Proceeds(low, e, r)
    ensures Follows(Exec(low, e.nowMs, e.call), Exec(high, e.nowMs, e.call), r, e.nowMs)
    ensures e.call.CheckCall? ==>
              (Admits(Check(low, e.nowMs, e.call.key, e.call.limits, e.call.cost, e.call.id).1) <==>
               Admits(Check(high, e.nowMs, e.call.key, e.call.limits, e.call.cost, e.call.id).1))
  {
    hide Check, Settle, Refund, Borrow, Return, SlotFollows, LiveAt, RecordsKeepLimits, KeepsLimits;
    var low', high' := Exec(low, e.nowMs, e.call), Exec(high, e.nowMs, e.call);
    forall slot: Slot
      ensures SlotFollows(low', high', r, slot, e.nowMs)
    {
      match e.call {
        case CheckCall(key, limits, cost, id) => CheckFollows(low, high, r, e.nowMs, key, limits, cost, id, slot);
        case SettleCall(id, split, actual) => SettleFollows(low, high, r, e.nowMs, id, split, actual, slot);
        case RefundCall(id) => RefundFollows(low, high, r, e.nowMs, id, slot);
        case ReturnCall(key, limits, add) => ReturnFollows(low, high, r, e.nowMs, key, limits, add, slot);
      }
    }
    forall id: string | id != r.id
      ensures LiveAt(low', id, e.nowMs) == LiveAt(high', id, e.nowMs)
    {
      RecordsFollow(low, high, r, e, id);
    }
    LimitsKept(low, r, e);
    if e.call.CheckCall? {
      ChecksAlike(low, high, r, e.nowMs, e.call.key, e.call.limits, e.call.cost, e.call.id);
    }
  }

  /** Admitted traffic, in time. */
  predicate AllProceed(low: Books, t: int, run: seq<Timed>, r: Request)
    decreases |run|
  {
    run == [] ||
    (t <= run[0].nowMs && Proceeds(low, run[0], r) &&
     AllProceed(Exec(low, run[0].nowMs, run[0].call), run[0].nowMs, run[1..], r))
  }

  /** Two stores answer every check of a run alike. */
  predicate SameVerdicts(low: Books, high: Books, run: seq<Timed>)
    decreases |run|
  {
    run == [] ||
    (var e := run[0];
     (e.call.CheckCall? ==>
        (Admits(Check(low, e.nowMs, e.call.key, e.call.limits, e.call.cost, e.call.id).1) <==>
         Admits(Check(high, e.nowMs, e.call.key, e.call.limits, e.call.cost, e.call.id).1))) &&
     SameVerdicts(Exec(low, e.nowMs, e.call), Exec(high, e.nowMs, e.call), run[1..]))
  }

  lemma {:induction false} RunFollows(low: Books, high: Books, r: Request, t: int, run: seq<Timed>)
    requires Follows(low, high, r, t) && 0 < t && AllProceed(low, t, run, r)
    ensures SameVerdicts(low, high, run)
    ensures Follows(RunBooks(low, run), RunBooks(high, run), r, ClockAfter(t, run)) && t <= ClockAfter(t, run)
    decreases |run|
  {
    hide Follows, Exec, Check, Proceeds;
    if run != [] {
      var e := run[0];
      Later(low, high, r, t, e.nowMs);
      CallFollows(low, high, r, e);
      RunFollows(Exec(low, e.nowMs, e.call), Exec(high, e.nowMs, e.call), r, e.nowMs, run[1..]);
      assert ClockAfter(t, run) == ClockAfter(e.nowMs, run[1..]);
    }
  }

  /** The request itself, charged on one side only. */
  lemma RequestFollows(b: Books, t: int, r: Request)
    requires 0 < t && WrittenBy(b, t) && RecordsKeepLimits(b, r)
    requires Admits(Check(b, t, r.key, r.limits, r.cost, r.id).1)
    ensures Follows(Check(b, t, r.key, r.limits, r.cost, r.id).0, b, r, t)
  {
    hide Check, LoadBucket, TryConsume, CellIn, KeepsLimits, Masked;
    var low := Check(b, t, r.key, r.limits, r.cost, r.id).0;
    AdmitsIff(b, t, r.key, r.limits, r.cost, r.id);
    CheckRecords(b, t, r.key, r.limits, r.cost, r.id);
    forall slot: Slot
      ensures SlotFollows(low, b, r, slot, t)
    {
      CheckWrites(b, t, r.key, r.limits, r.cost, r.id, slot);
      if Charged(r, slot) {
        WrittenSlot(b, slot, t);
        RequestCharges(b, low, r, slot, t);
      }
    }
    SelfKeepsLimits(r);
    forall id | id in low.res
      ensures KeepsLimits(r, low.res[id].key, low.res[id].split, low.res[id].limits)
    {
    }
  }

  lemma SelfKeepsLimits(r: Request)
    ensures KeepsLimits(r, r.key, Split(r.limits), Masked(Split(r.limits), r.limits))
  {
    MaskedKeepsLimits(r, r.key, r.limits);
  }

  lemma RequestCharges(b: Books, low: Books, r: Request, slot: Slot, t: int)
    requires 0 < t && WrittenAt(b, slot, t) && Charged(r, slot) &&
             AxisAdmits(b, slot.axis, slot.key, r.limits, t, r.cost)
    requires CellAt(low, slot) == Some(ToCell(TryConsume(LoadOf(b, r, slot, t), t, CostOn(r, slot)).0))
    ensures SlotFollows(low, b, r, slot, t)
  {
    hide LoadBucket, CellIn;
    LoadLater(b, r, slot, t, t);
    var s := LoadOf(b, r, slot, t);
    ReservedIsFresh(s, t, CostOn(r, slot));
    LoadStored(low, slot, TryConsume(s, t, CostOn(r, slot)).0, r.limits, t);
  }

  lemma WrittenSlot(b: Books, slot: Slot, t: int)
    requires WrittenBy(b, t)
    ensures WrittenAt(b, slot, t)
  {
    assert CellAt(b, slot).Some? ==> slot.key in b.Shelf(slot.axis);
  }

  // ----- the request's own reservation

  lemma {:induction false} RequestStays(low: Books, r: Request, t: int, run: seq<Timed>)
    requires PendingIn(low.res, r.id) && AllProceed(low, t, run, r) && ClockAfter(t, run) <= low.res[r.id].expiresAt
    ensures r.id in RunBooks(low, run).res && RunBooks(low, run).res[r.id] == low.res[r.id]
    decreases |run|
  {
    hide Exec, Check;
    if run != [] {
      var e := run[0];
      TimeGoesOn(Exec(low, e.nowMs, e.call), r, e.nowMs, run[1..]);
      assert ClockAfter(t, run) == ClockAfter(e.nowMs, run[1..]);
      UnexpiredStays(low, e, r.id);
      OthersLeaveItAlone(low, e, r.id);
      RequestStays(Exec(low, e.nowMs, e.call), r, e.nowMs, run[1..]);
    }
  }

  lemma {:induction false} TimeGoesOn(low: Books, r: Request, t: int, run: seq<Timed>)
    requires AllProceed(low, t, run, r)
    ensures t <= ClockAfter(t, run)
    decreases |run|
  {
    hide Exec, Proceeds;
    if run != [] {
      var e := run[0];
      TimeGoesOn(Exec(low, e.nowMs, e.call), r, e.nowMs, run[1..]);
      assert ClockAfter(t, run) == ClockAfter(e.nowMs, run[1..]);
    }
  }

  /** Transparency over the whole store: a request is admitted, any admitted traffic follows, and the request is
      refunded before its reservation expires.  Then every check in between got the verdict it would have got had
      the request never come; on the request's buckets the level ends between what it would be then and that plus
      the cost, capped; and every other bucket is the same. */
  lemma RefundLeavesNoTrace(b: Books, t1: int, r: Request, run: seq<Timed>, t2: int, slot: Slot)
    requires 0 < t1 && WrittenBy(b, t1) && RecordsKeepLimits(b, r)
    requires Admits(Check(b, t1, r.key, r.limits, r.cost, r.id).1)
    requires AllProceed(Check(b, t1, r.key, r.limits, r.cost, r.id).0, t1, run, r)
    requires ClockAfter(t1, run) <= t2 <= t1 + RESERVATION_TTL
    ensures var charged := Check(b, t1, r.key, r.limits, r.cost, r.id).0;
            var (undone, reply) := Refund(RunBooks(charged, run), t2, r.id);
            var never := RunBooks(b, run);
            SameVerdicts(charged, b, run) && reply == Ok(()) &&
            if Charged(r, slot) then
              var level := LoadOf(never, r, slot, t2).tokens;
              level <= LoadOf(undone, r, slot, t2).tokens <=
                Min(r.limits.At(slot.axis) * UNIT, level + CostOn(r, slot) * UNIT)
            else CellAt(undone, slot) == CellAt(never, slot)
  {
    hide Check, Refund, RunBooks, AllProceed, SameVerdicts, LoadBucket, CellIn, Credit, RecordsKeepLimits, Masked,
         SlotFollows;
    var charged := Check(b, t1, r.key, r.limits, r.cost, r.id).0;
    RequestFollows(b, t1, r);
    RunFollows(charged, b, r, t1, run);
    var low, high := RunBooks(charged, run), RunBooks(b, run);
    AdmittedIsPending(b, t1, r.key, r.limits, r.cost, r.id, t1);
    CheckRecords(b, t1, r.key, r.limits, r.cost, r.id);
    RequestStays(charged, r, t1, run);
    RefundReplies(low, t2, r.id);
    RefundWrites(low, t2, r.id, slot);
    Later(low, high, r, ClockAfter(t1, run), t2);
    assert SlotFollows(low, high, r, slot, t2);
    if Charged(r, slot) {
      RefundedLevel(low, Refund(low, t2, r.id).0, high, r, slot, t2);
    } else {
      OtherSlot(low, high, r, slot, t2);
    }
  }

  lemma OtherSlot(low: Books, high: Books, r: Request, slot: Slot, t: int)
    requires SlotFollows(low, high, r, slot, t) && !Charged(r, slot)
    ensures CellAt(low, slot) == CellAt(high, slot)
  {
  }

  lemma RefundedLevel(low: Books, undone: Books, high: Books, r: Request, slot: Slot, t: int)
    requires SlotFollows(low, high, r, slot, t) && Charged(r, slot) && r.id in low.res
    requires low.res[r.id].limits == Masked(Split(r.limits), r.limits)
    requires low.res[r.id].reserved == Masked(Split(r.limits), r.cost.Clamped())
    requires CellAt(undone, slot) ==
             Some(ToCell(Credit(low.Load(slot.axis, slot.key, low.res[r.id].limits, t), t,
                                low.res[r.id].reserved.At(slot.axis))))
    ensures LoadOf(high, r, slot, t).tokens <= LoadOf(undone, r, slot, t).tokens <=
              Min(r.limits.At(slot.axis) * UNIT, LoadOf(high, r, slot, t).tokens + CostOn(r, slot) * UNIT)
  {
    hide LoadBucket, CellIn, Masked, Credit;
    MaskedKeepsMetered(Split(r.limits), r.limits, slot.axis);
    MaskedKeepsMetered(Split(r.limits), r.cost.Clamped(), slot.axis);
    LoadLater(low, r, slot, t, t);
    LoadLater(high, r, slot, t, t);
    var l, h := LoadOf(low, r, slot, t), LoadOf(high, r, slot, t);
    assert low.res[r.id].reserved.At(slot.axis) == CostOn(r, slot);
    CreditCloses(l, h, CostOn(r, slot), t);
    CreditStaysFresh(l, t, CostOn(r, slot));
    LoadStored(undone, slot, Credit(l, t, CostOn(r, slot)), r.limits, t);
  }

  lemma CreditStaysFresh(s: State, nowMs: int, amount: nat)
    requires Fresh(s, nowMs) && s.capacity >= 0
    ensures Fresh(Credit(s, nowMs, amount), nowMs) && Credit(s, nowMs, amount).capacity == s.capacity
  {
  }
}
