/** The in-process store and the Redis scripts give the same answers.  They keep different refill points:
    the scripts write the request bucket when settling, the in-process store does not, and a return that
    concerns other axes is written by one and skipped by the other.  What agrees is the level each bucket
    has now, and refilling twice is refilling once. */
module Bisimulation {
  import opened Quota
  import opened Bucket
  import opened BucketLaws
  import opened StoreSpec
  import opened StoreLedger
  import opened StoreRuns
  import S = ScriptSpec

  /** What a call answers. */
  datatype Reply = Decided(Result<Decision>) | Done(Result<()>) | Granted(Result<BorrowResult>)

  function StoreReply(b: Books, nowMs: int, c: Call): Reply {
    match c
    case CheckCall(key, limits, cost, id) => Decided(Check(b, nowMs, key, limits, cost, id).1)
    case SettleCall(id, split, actual) => Decided(Settle(b, nowMs, id, split, actual).1)
    case RefundCall(id) => Done(Refund(b, nowMs, id).1)
    case BorrowCall(key, limits, spec) => Granted(Borrow(b, nowMs, key, limits, spec).1)
    case ReturnCall(key, limits, add) => Done(Return(b, nowMs, key, limits, add).1)
  }

  function Script(h: S.Hashes, nowMs: int, c: Call): (S.Hashes, Reply) {
    match c
    case CheckCall(key, limits, cost, id) => var (h', r) := S.Check(h, nowMs, key, limits, cost, id); (h', Decided(r))
    case SettleCall(id, split, actual) => var (h', r) := S.Settle(h, nowMs, id, split, actual); (h', Decided(r))
    case RefundCall(id) => var (h', r) := S.Refund(h, nowMs, id); (h', Done(r))
    case BorrowCall(key, limits, spec) => var (h', r) := S.Borrow(h, nowMs, key, limits, spec); (h', Granted(r))
    case ReturnCall(key, limits, add) => var (h', r) := S.Return(h, nowMs, key, limits, add); (h', Done(r))
  }

  // ----- the relation

  predicate Tame(cell: Option<Cell>, capacity: int, nowMs: int) {
    cell.Some? ==> 0 < cell.value.lastMs <= nowMs && 0 <= cell.value.tokens <= capacity * UNIT
  }

  /** Both buckets of a slot have the same level now. */
  predicate SlotAgrees(b: Books, h: S.Hashes, capacity: int, nowMs: int, slot: Slot) {
    0 < nowMs && 0 <= capacity && Tame(CellAt(b, slot), capacity, nowMs) && Tame(CellAt(h, slot), capacity, nowMs) &&
    LoadBucket(b.Shelf(slot.axis), slot.key, capacity, nowMs).tokens ==
      S.Level(h.Shelf(slot.axis), slot.key, capacity, nowMs)
  }

  function LiveIn(b: Books, id: string, nowMs: int): Option<Reservation> {
    if id in b.res && !(nowMs > b.res[id].expiresAt) then Some(b.res[id]) else None
  }

  /** The same reservation, recorded two ways. */
  predicate SameReservation(r: Reservation, x: S.ResHash, id: string, lim: string -> Amounts) {
    r.key == x.key && r.split == x.split && r.reserved == x.reserved && r.limits == x.limits && r.status == x.status &&
    r.expiresAt == x.expiresAt && r.reserved.NonNegative() &&
    r.limits == Masked(r.split, lim(BucketKey(r.key))) &&
    (r.status == Settled ==>
       r.last == Decision(true, NoLimit, x.snapRemaining, Shown(r.split, r.limits), 0, id, x.snapOvershoot))
  }

  predicate ReservationAgrees(b: Books, h: S.Hashes, lim: string -> Amounts, nowMs: int, id: string) {
    var r, x := LiveIn(b, id, nowMs), S.Find(h, id, nowMs);
    (r.None? && x.None?) || (r.Some? && x.Some? && SameReservation(r.value, x.value, id, lim))
  }

  ghost predicate Agree(b: Books, h: S.Hashes, lim: string -> Amounts, nowMs: int) {
    (forall slot: Slot :: SlotAgrees(b, h, lim(slot.key).At(slot.axis), nowMs, slot)) &&
    (forall id: string :: ReservationAgrees(b, h, lim, nowMs, id))
  }

  /** Limits are fixed per key. */
  predicate FixedCall(c: Call, lim: string -> Amounts) {
    (c.CheckCall? || c.BorrowCall? || c.ReturnCall?) ==> c.limits == lim(BucketKey(c.key))
  }

  // ----- time

  /** The level of a tame bucket, as both implementations compute it. */
  function Filled(cell: Option<Cell>, capacity: int, nowMs: int): int {
    if cell.None? then capacity * UNIT
    else Min(capacity * UNIT, cell.value.tokens + Gain(capacity, nowMs - cell.value.lastMs))
  }

  lemma BothFill(b: Books, h: S.Hashes, capacity: int, nowMs: int, slot: Slot)
    requires 0 < nowMs && 0 <= capacity
    ensures Tame(CellAt(b, slot), capacity, nowMs) ==>
              LoadBucket(b.Shelf(slot.axis), slot.key, capacity, nowMs).tokens ==
                Filled(CellAt(b, slot), capacity, nowMs)
    ensures Tame(CellAt(h, slot), capacity, nowMs) ==>
              S.Level(h.Shelf(slot.axis), slot.key, capacity, nowMs) == Filled(CellAt(h, slot), capacity, nowMs)
  {
  }

  /** From one instant to a later one a tame bucket just refills. */
  lemma FilledLater(cell: Option<Cell>, capacity: nat, t1: int, t2: int)
    requires 0 < t1 <= t2 && Tame(cell, capacity, t1)
    ensures Filled(cell, capacity, t2) == Min(capacity * UNIT, Filled(cell, capacity, t1) + Gain(capacity, t2 - t1))
    ensures 0 <= Filled(cell, capacity, t1) <= capacity * UNIT
  {
    GainIsMonotone(capacity, capacity, t2 - t1);
    if cell.Some? {
      GainIsMonotone(capacity, capacity, t1 - cell.value.lastMs);
      assert Gain(capacity, t1 - cell.value.lastMs) + Gain(capacity, t2 - t1) == Gain(capacity, t2 - cell.value.lastMs);
    }
  }

  lemma SlotAgreesLater(b: Books, h: S.Hashes, capacity: int, t1: int, t2: int, slot: Slot)
    requires SlotAgrees(b, h, capacity, t1, slot) && t1 <= t2
    ensures SlotAgrees(b, h, capacity, t2, slot)
  {
    hide LoadBucket, S.Level, Filled;
    BothFill(b, h, capacity, t1, slot);
    BothFill(b, h, capacity, t2, slot);
    FilledLater(CellAt(b, slot), capacity, t1, t2);
    FilledLater(CellAt(h, slot), capacity, t1, t2);
  }

  lemma AgreeLater(b: Books, h: S.Hashes, lim: string -> Amounts, t1: int, t2: int)
    requires Agree(b, h, lim, t1) && t1 <= t2
    ensures Agree(b, h, lim, t2)
  {
    hide SlotAgrees, SameReservation;
    forall slot: Slot
      ensures SlotAgrees(b, h, lim(slot.key).At(slot.axis), t2, slot)
    {
      SlotAgreesLater(b, h, lim(slot.key).At(slot.axis), t1, t2, slot);
    }
    forall id: string
      ensures ReservationAgrees(b, h, lim, t2, id)
    {
      assert ReservationAgrees(b, h, lim, t1, id);
      if LiveIn(b, id, t1).Some? {
        SameExpiry(b, h, lim, t1, id);
      }
    }
  }

  lemma SameExpiry(b: Books, h: S.Hashes, lim: string -> Amounts, nowMs: int, id: string)
    requires ReservationAgrees(b, h, lim, nowMs, id) && LiveIn(b, id, nowMs).Some?
    ensures LiveIn(b, id, nowMs).value.expiresAt == S.Find(h, id, nowMs).value.expiresAt
  {
  }

  // ----- one slot through one call

  /** The common level x that a call gives a bucket: written now, or already there. */
  predicate Leaves(cell: Option<Cell>, cell': Option<Cell>, level: int, x: int, nowMs: int) {
    cell' == Some(Cell(x, nowMs)) || (cell' == cell && x == level)
  }

  lemma WrittenAgrees(b: Books, b': Books, h: S.Hashes, h': S.Hashes, capacity: int, nowMs: int, slot: Slot, x: int)
    requires SlotAgrees(b, h, capacity, nowMs, slot) && 0 <= x <= capacity * UNIT
    requires var level := LoadBucket(b.Shelf(slot.axis), slot.key, capacity, nowMs).tokens;
             Leaves(CellAt(b, slot), CellAt(b', slot), level, x, nowMs) &&
               Leaves(CellAt(h, slot), CellAt(h', slot), level, x, nowMs)
    ensures SlotAgrees(b', h', capacity, nowMs, slot)
  {
    hide LoadBucket, S.Level;
    BothFill(b, h, capacity, nowMs, slot);
    BothFill(b', h', capacity, nowMs, slot);
    assert Gain(capacity, 0) == 0;
  }

  /** What SlotAgrees says about loading: the state is fresh, and its level is the script's. */
  lemma Loaded(b: Books, h: S.Hashes, capacity: int, nowMs: int, slot: Slot)
    requires SlotAgrees(b, h, capacity, nowMs, slot)
    ensures var s := LoadBucket(b.Shelf(slot.axis), slot.key, capacity, nowMs);
            Fresh(s, nowMs) && s.capacity == capacity && 0 <= s.tokens <= capacity * UNIT &&
            s.tokens == S.Level(h.Shelf(slot.axis), slot.key, capacity, nowMs)
  {
    hide S.Level;
    BothFill(b, h, capacity, nowMs, slot);
    FilledLater(CellAt(b, slot), capacity, nowMs, nowMs);
    assert Gain(capacity, 0) == 0;
  }

  /** Consuming and spending: same verdict, same level, same wait. */
  lemma SameSpend(s: State, nowMs: int, cost: nat)
    requires Fresh(s, nowMs) && 0 <= s.tokens <= s.capacity * UNIT
    ensures var (t, out) := TryConsume(s, nowMs, cost);
            (out.allowed <==> !(s.tokens < cost * UNIT || cost > s.capacity)) &&
            (out.allowed ==> ToCell(t) == Cell(s.tokens - cost * UNIT, nowMs) && 0 <= t.tokens &&
                             out.remaining == Whole(s.tokens - cost * UNIT)) &&
            (!out.allowed ==> out.remaining == Whole(s.tokens) && out.retryMs == S.RetryMs(s.tokens, s.capacity, cost))
  {
  }

  lemma SameAdd(s: State, nowMs: int, amount: nat)
    requires Fresh(s, nowMs) && 0 <= s.tokens <= s.capacity * UNIT
    ensures ToCell(Credit(s, nowMs, amount)) == Cell(Min(s.capacity * UNIT, s.tokens + amount * UNIT), nowMs)
  {
  }

  lemma SameSettle(s: State, nowMs: int, reserved: nat, actual: nat)
    requires Fresh(s, nowMs) && 0 <= s.tokens <= s.capacity * UNIT
    ensures var (t, overshoot) := SettleAxis(s, nowMs, reserved, actual);
            var (x, over) := S.ApplyDelta(s.tokens, s.capacity, reserved, actual);
            ToCell(t) == Cell(x, nowMs) && overshoot == over && 0 <= x <= s.capacity * UNIT
  {
  }

  // ----- check

  /** On every axis the two stores see the same level, fresh and within capacity. */
  lemma AxesLoaded(b: Books, h: S.Hashes, lim: string -> Amounts, nowMs: int, k: string)
    requires Agree(b, h, lim, nowMs)
    ensures forall a: Axis ::
              var s := b.Load(a, k, lim(k), nowMs);
              Fresh(s, nowMs) && s.capacity == lim(k).At(a) && 0 <= s.tokens <= s.capacity * UNIT &&
              s.tokens == S.LevelOn(h, a, k, lim(k), nowMs)
  {
    hide LoadBucket, S.Level, SlotAgrees;
    forall a: Axis
      ensures var s := b.Load(a, k, lim(k), nowMs);
              Fresh(s, nowMs) && s.capacity == lim(k).At(a) && 0 <= s.tokens <= s.capacity * UNIT &&
              s.tokens == S.LevelOn(h, a, k, lim(k), nowMs)
    {
      assert SlotAgrees(b, h, lim(k).At(a), nowMs, Slot(a, k));
      Loaded(b, h, lim(k).At(a), nowMs, Slot(a, k));
    }
  }

  /** One axis of a check: same verdict, remaining count and wait. */
  lemma AxisReplies(b: Books, h: S.Hashes, lim: string -> Amounts, nowMs: int, k: string, cost: Amounts, a: Axis)
    requires Agree(b, h, lim, nowMs)
    ensures var limits, c := lim(k), cost.Clamped();
            var out := Consumed(Purged(b, nowMs), a, k, limits, nowMs, c).1;
            var level := S.LevelOn(h, a, k, limits, nowMs);
            (out.allowed <==> S.HasCost(h, a, k, limits, nowMs, c)) &&
            (out.allowed ==> out.remaining == Whole(level - c.At(a) * UNIT)) &&
            (!out.allowed ==>
               out.remaining == Whole(level) &&
               out.retryMs == S.RetryMs(level, limits.At(a), c.At(a))) &&
            Purged(b, nowMs).Load(a, k, limits, nowMs).tokens == level
  {
    hide LoadBucket, S.Level, TryConsume, S.RetryMs, Whole, Fresh, Agree;
    AxesLoaded(b, h, lim, nowMs, k);
    ClampedAt(cost, a);
    SameSpend(b.Load(a, k, lim(k), nowMs), nowMs, cost.Clamped().At(a));
  }

  lemma CheckReplies(b: Books, h: S.Hashes, lim: string -> Amounts, nowMs: int, key: Key, cost: Amounts, id: string)
    requires Agree(b, h, lim, nowMs)
    ensures var limits := lim(BucketKey(key));
            Check(b, nowMs, key, limits, cost, id).1 == S.Check(h, nowMs, key, limits, cost, id).1
  {
    hide LoadBucket, S.LevelOn, Saved, S.RetryMs, Whole, Agree, Purged, Consumed, S.HasCost, Masked, BucketKey;
    var k := BucketKey(key);
    AxisReplies(b, h, lim, nowMs, k, cost, Rpm);
    if Split(lim(k)) {
      AxisReplies(b, h, lim, nowMs, k, cost, Itpm);
      AxisReplies(b, h, lim, nowMs, k, cost, Otpm);
    } else {
      AxisReplies(b, h, lim, nowMs, k, cost, Tpm);
    }
  }

  lemma ClampedAt(x: Amounts, a: Axis)
    ensures x.Clamped().At(a) == Clamp(x.At(a)) >= 0
  {
  }

  lemma ScriptCheckWrites(h: S.Hashes, nowMs: int, key: Key, limits: Amounts, cost: Amounts, id: string, slot: Slot)
    ensures var (h', reply) := S.Check(h, nowMs, key, limits, cost, id);
            CellAt(h', slot) ==
            if reply.Ok? && reply.value.allowed && Touches(slot, key, Split(limits))
            then Some(Cell(S.LevelOn(h, slot.axis, slot.key, limits, nowMs) - Clamp(cost.At(slot.axis)) * UNIT, nowMs))
            else CellAt(h, slot)
  {
    hide S.Level, Saved, S.RetryMs, Whole, CellIn;
    var k := BucketKey(key);
    ClampedAt(cost, slot.axis);
    SavedAt(h, ModeAxes(Split(limits)), k, S.SpendOn(h, k, limits, nowMs, cost.Clamped()), slot);
  }

  lemma CheckSlot(b: Books, h: S.Hashes, lim: string -> Amounts, nowMs: int, key: Key, cost: Amounts, id: string,
                  slot: Slot)
    requires Agree(b, h, lim, nowMs)
    ensures var limits := lim(BucketKey(key));
            SlotAgrees(Check(b, nowMs, key, limits, cost, id).0, S.Check(h, nowMs, key, limits, cost, id).0,
                       lim(slot.key).At(slot.axis), nowMs, slot)
  {
    hide LoadBucket, S.Level, TryConsume, Check, S.Check, CellIn, SlotAgrees, Fresh;
    var limits := lim(BucketKey(key));
    var b', h' := Check(b, nowMs, key, limits, cost, id).0, S.Check(h, nowMs, key, limits, cost, id).0;
    var cap := lim(slot.key).At(slot.axis);
    CheckReplies(b, h, lim, nowMs, key, cost, id);
    CheckWrites(b, nowMs, key, limits, cost, id, slot);
    ScriptCheckWrites(h, nowMs, key, limits, cost, id, slot);
    assert SlotAgrees(b, h, cap, nowMs, slot);
    Loaded(b, h, cap, nowMs, slot);
    var s := LoadBucket(b.Shelf(slot.axis), slot.key, cap, nowMs);
    var reply := Check(b, nowMs, key, limits, cost, id).1;
    if reply.Ok? && reply.value.allowed && Touches(slot, key, Split(limits)) {
      SameSpend(s, nowMs, Clamp(cost.At(slot.axis)));
      WrittenAgrees(b, b', h, h', cap, nowMs, slot, s.tokens - Clamp(cost.At(slot.axis)) * UNIT);
    } else {
      WrittenAgrees(b, b', h, h', cap, nowMs, slot, s.tokens);
    }
  }

  predicate Admitted(reply: Result<Decision>) {
    reply.Ok? && reply.value.allowed
  }

  lemma CheckLive(b: Books, nowMs: int, key: Key, limits: Amounts, cost: Amounts, newId: string, id: string)
    ensures var (b', reply) := Check(b, nowMs, key, limits, cost, newId);
            LiveIn(b', id, nowMs) ==
            if Admitted(reply) && id == newId
            then Some(Reservation(key, Split(limits), Masked(Split(limits), cost.Clamped()),
                                  Masked(Split(limits), limits), ZERO,
                                  Pending, NO_DECISION, nowMs + RESERVATION_TTL))
            else LiveIn(b, id, nowMs)
  {
    hide LoadBucket, TryConsume, Saved, Shown, Each, FirstFailing, Masked;
  }

  lemma ScriptCheckLive(h: S.Hashes, nowMs: int, key: Key, limits: Amounts, cost: Amounts, newId: string, id: string)
    ensures var (h', reply) := S.Check(h, nowMs, key, limits, cost, newId);
            S.Find(h', id, nowMs) ==
            if Admitted(reply) && id == newId
            then Some(S.ResHash(key, Split(limits), Masked(Split(limits), cost.Clamped()),
                                Masked(Split(limits), limits),
                                Pending, ZERO, ZERO, nowMs + RESERVATION_TTL))
            else S.Find(h, id, nowMs)
  {
    hide S.Level, Saved, Shown, Each, FirstFailing, Masked, S.RetryMs;
  }

  lemma CheckReservation(b: Books, h: S.Hashes, lim: string -> Amounts, nowMs: int, key: Key, cost: Amounts,
                         newId: string, id: string)
    requires Agree(b, h, lim, nowMs)
    ensures var limits := lim(BucketKey(key));
            ReservationAgrees(Check(b, nowMs, key, limits, cost, newId).0,
                              S.Check(h, nowMs, key, limits, cost, newId).0, lim, nowMs, id)
  {
    hide Check, S.Check, LiveIn, S.Find, SlotAgrees, Masked;
    var limits := lim(BucketKey(key));
    assert ReservationAgrees(b, h, lim, nowMs, id);
    CheckReplies(b, h, lim, nowMs, key, cost, newId);
    CheckLive(b, nowMs, key, limits, cost, newId, id);
    ScriptCheckLive(h, nowMs, key, limits, cost, newId, id);
    MaskedClamped(Split(limits), cost);
  }

  lemma MaskedClamped(split: bool, x: Amounts)
    ensures Masked(split, x.Clamped()).NonNegative()
  {
  }

  // ----- settle and refund

  lemma SnapshotLoaded(b: Books, h: S.Hashes, lim: string -> Amounts, nowMs: int, r: Reservation, a: Axis)
    requires Agree(b, h, lim, nowMs) && r.limits == Masked(r.split, lim(BucketKey(r.key))) && Metered(r.split, a)
    ensures var s := b.Load(a, BucketKey(r.key), r.limits, nowMs);
            Fresh(s, nowMs) && s.capacity == r.limits.At(a) == lim(BucketKey(r.key)).At(a) &&
              0 <= s.tokens <= s.capacity * UNIT &&
            s.tokens == S.LevelOn(h, a, BucketKey(r.key), r.limits, nowMs)
  {
    hide LoadBucket, S.Level, SlotAgrees, Fresh, Agree;
    MaskedKeepsMetered(r.split, lim(BucketKey(r.key)), a);
    AxesLoaded(b, h, lim, nowMs, BucketKey(r.key));
    assert b.Load(a, BucketKey(r.key), r.limits, nowMs) == b.Load(a, BucketKey(r.key), lim(BucketKey(r.key)), nowMs);
    assert S.LevelOn(h, a, BucketKey(r.key), r.limits, nowMs) ==
           S.LevelOn(h, a, BucketKey(r.key), lim(BucketKey(r.key)), nowMs);
  }

  /** A pending reservation of the right mode, as both stores see it. */
  predicate Settles(b: Books, h: S.Hashes, lim: string -> Amounts, nowMs: int, id: string, split: bool) {
    var r, x := LiveIn(b, id, nowMs), S.Find(h, id, nowMs);
    r.Some? && x.Some? && SameReservation(r.value, x.value, id, lim) && r.value.split == split &&
      r.value.status == Pending
  }

  lemma SettledAlike(b: Books, h: S.Hashes, lim: string -> Amounts, nowMs: int, id: string, split: bool,
                     actual: Amounts)
    requires Agree(b, h, lim, nowMs) && Settles(b, h, lim, nowMs, id, split)
    ensures var r, x := b.res[id], h.res[id];
            var act := Masked(split, actual.Clamped()).(rpm := 0);
            forall a | a in TokenAxes(split) ::
              var (t, over) := SettledAxis(Purged(b, nowMs), a, r, nowMs, act);
              var (y, over') := S.SettledLevel(h, a, x, nowMs, act);
              ToCell(t) == Cell(y, nowMs) && over == over' && 0 <= y <= lim(BucketKey(r.key)).At(a) * UNIT
  {
    hide LoadBucket, S.Level, SlotAgrees, Fresh, SettleAxis, S.ApplyDelta, Agree;
    var r := b.res[id];
    var act := Masked(split, actual.Clamped()).(rpm := 0);
    forall a | a in TokenAxes(split)
      ensures var (t, over) := SettledAxis(Purged(b, nowMs), a, r, nowMs, act);
              var (y, over') := S.SettledLevel(h, a, h.res[id], nowMs, act);
              ToCell(t) == Cell(y, nowMs) && over == over' && 0 <= y <= lim(BucketKey(r.key)).At(a) * UNIT
    {
      assert Metered(split, a);
      SnapshotLoaded(b, h, lim, nowMs, r, a);
      SameSettle(b.Load(a, BucketKey(r.key), r.limits, nowMs), nowMs, r.reserved.At(a), act.At(a));
    }
  }

  lemma SettleReplies(b: Books, h: S.Hashes, lim: string -> Amounts, nowMs: int, id: string, split: bool,
                      actual: Amounts)
    requires Agree(b, h, lim, nowMs)
    ensures Settle(b, nowMs, id, split, actual).1 == S.Settle(h, nowMs, id, split, actual).1
  {
    assert ReservationAgrees(b, h, lim, nowMs, id);
    if Settles(b, h, lim, nowMs, id, split) {
      SettledReplies(b, h, lim, nowMs, id, split, actual);
    } else {
      hide LoadBucket, S.Level, SlotAgrees, Fresh, SettleAxis, S.ApplyDelta, Saved, Whole, Each;
    }
  }

  lemma SettledReplies(b: Books, h: S.Hashes, lim: string -> Amounts, nowMs: int, id: string, split: bool,
                       actual: Amounts)
    requires Agree(b, h, lim, nowMs) && Settles(b, h, lim, nowMs, id, split)
    ensures Settle(b, nowMs, id, split, actual).1 == S.Settle(h, nowMs, id, split, actual).1
  {
    hide LoadBucket, S.LevelOn, Agree, Fresh, SettledAxis, S.SettledLevel, Saved, Whole, Masked;
    SettledAlike(b, h, lim, nowMs, id, split, actual);
    SnapshotLoaded(b, h, lim, nowMs, b.res[id], Rpm);
    if split {
      assert Itpm in TokenAxes(true) && Otpm in TokenAxes(true);
    } else {
      assert Tpm in TokenAxes(false);
    }
  }

  lemma ScriptSettleWrites(h: S.Hashes, nowMs: int, id: string, split: bool, actual: Amounts, slot: Slot)
    ensures var x := S.Find(h, id, nowMs);
            var act := Masked(split, actual.Clamped()).(rpm := 0);
            CellAt(S.Settle(h, nowMs, id, split, actual).0, slot) ==
            if x.Some? && x.value.status == Pending && x.value.split == split && Touches(slot, x.value.key, split)
            then Some(Cell(if slot.axis == Rpm then S.LevelOn(h, Rpm, slot.key, x.value.limits, nowMs)
                           else S.SettledLevel(h, slot.axis, x.value, nowMs, act).0, nowMs))
            else CellAt(h, slot)
  {
    hide S.Level, S.ApplyDelta, Saved, Whole, CellIn, Shown, Each;
    var x := S.Find(h, id, nowMs);
    if x.Some? {
      var act := Masked(split, actual.Clamped()).(rpm := 0);
      SavedAt(h, ModeAxes(split), BucketKey(x.value.key), S.SettleOn(h, x.value, nowMs, act), slot);
    }
  }

  lemma SettleSlot(b: Books, h: S.Hashes, lim: string -> Amounts, nowMs: int, id: string, split: bool, actual: Amounts,
                   slot: Slot)
    requires Agree(b, h, lim, nowMs)
    ensures SlotAgrees(Settle(b, nowMs, id, split, actual).0, S.Settle(h, nowMs, id, split, actual).0,
                       lim(slot.key).At(slot.axis), nowMs, slot)
  {
    hide LoadBucket, S.Level, Settle, S.Settle, CellIn, SlotAgrees, Fresh, SettleAxis, S.ApplyDelta;
    var b', h' := Settle(b, nowMs, id, split, actual).0, S.Settle(h, nowMs, id, split, actual).0;
    var cap := lim(slot.key).At(slot.axis);
    SettleWrites(b, nowMs, id, split, actual, slot);
    ScriptSettleWrites(h, nowMs, id, split, actual, slot);
    assert SlotAgrees(b, h, cap, nowMs, slot);
    assert ReservationAgrees(b, h, lim, nowMs, id);
    Loaded(b, h, cap, nowMs, slot);
    var level := LoadBucket(b.Shelf(slot.axis), slot.key, cap, nowMs).tokens;
    if Settles(b, h, lim, nowMs, id, split) && Touches(slot, b.res[id].key, split) {
      var r, x := b.res[id], h.res[id];
      var act := Masked(split, actual.Clamped()).(rpm := 0);
      MaskedKeepsMetered(split, lim(slot.key), slot.axis);
      if slot.axis == Rpm {
        WrittenAgrees(b, b', h, h', cap, nowMs, slot, level);
      } else {
        SettledAlike(b, h, lim, nowMs, id, split, actual);
        MaskedKeepsMetered(split, actual.Clamped(), slot.axis);
        ClampedAt(actual, slot.axis);
        assert act.At(slot.axis) == Clamp(actual.At(slot.axis));
        WrittenAgrees(b, b', h, h', cap, nowMs, slot, S.SettledLevel(h, slot.axis, x, nowMs, act).0);
      }
    } else {
      WrittenAgrees(b, b', h, h', cap, nowMs, slot, level);
    }
  }

  lemma SettleLive(b: Books, nowMs: int, settled: string, split: bool, actual: Amounts, id: string)
    ensures var (b', reply) := Settle(b, nowMs, settled, split, actual);
            var r := LiveIn(b, id, nowMs);
            var act := Masked(split, actual.Clamped()).(rpm := 0);
            LiveIn(b', id, nowMs) ==
            if id == settled && r.Some? && r.value.status == Pending && r.value.split == split && reply.Ok?
            then Some(r.value.(status := Settled, actual := act, last := reply.value,
                               expiresAt := nowMs + RESERVATION_TTL))
            else r
  {
    hide LoadBucket, SettleAxis, Saved, Shown, Each, Whole, Masked;
  }

  lemma ScriptSettleLive(h: S.Hashes, nowMs: int, settled: string, split: bool, actual: Amounts, id: string)
    ensures var (h', reply) := S.Settle(h, nowMs, settled, split, actual);
            var x := S.Find(h, id, nowMs);
            S.Find(h', id, nowMs) ==
            if id == settled && x.Some? && x.value.status == Pending && x.value.split == split && reply.Ok?
            then Some(x.value.(status := Settled, snapRemaining := reply.value.remaining,
                               snapOvershoot := reply.value.overshoot,
                               expiresAt := nowMs + RESERVATION_TTL))
            else x
    ensures var (h', reply) := S.Settle(h, nowMs, settled, split, actual);
            var x := S.Find(h, settled, nowMs);
            x.Some? && x.value.status == Pending && x.value.split == split ==>
              reply.Ok? && reply.value ==
                Decision(true, NoLimit, reply.value.remaining, Shown(split, x.value.limits), 0, settled,
                                                   reply.value.overshoot)
  {
    hide S.Level, S.ApplyDelta, Saved, Shown, Each, Whole, Masked;
  }

  lemma SettleReservation(b: Books, h: S.Hashes, lim: string -> Amounts, nowMs: int, settled: string, split: bool,
                          actual: Amounts, id: string)
    requires Agree(b, h, lim, nowMs)
    ensures ReservationAgrees(Settle(b, nowMs, settled, split, actual).0, S.Settle(h, nowMs, settled, split, actual).0,
                              lim, nowMs, id)
  {
    hide Settle, S.Settle, LiveIn, S.Find, SlotAgrees, Masked, Shown;
    assert ReservationAgrees(b, h, lim, nowMs, id);
    assert ReservationAgrees(b, h, lim, nowMs, settled);
    SettleReplies(b, h, lim, nowMs, settled, split, actual);
    SettleLive(b, nowMs, settled, split, actual, id);
    ScriptSettleLive(h, nowMs, settled, split, actual, id);
  }

  lemma RefundReplies(b: Books, h: S.Hashes, lim: string -> Amounts, nowMs: int, id: string)
    requires Agree(b, h, lim, nowMs)
    ensures Refund(b, nowMs, id).1 == S.Refund(h, nowMs, id).1
  {
    hide LoadBucket, S.Level, SlotAgrees, Saved;
    assert ReservationAgrees(b, h, lim, nowMs, id);
  }

  lemma ScriptRefundWrites(h: S.Hashes, nowMs: int, id: string, slot: Slot)
    ensures var x := S.Find(h, id, nowMs);
            CellAt(S.Refund(h, nowMs, id).0, slot) ==
            if x.Some? && x.value.status == Pending && Touches(slot, x.value.key, x.value.split)
            then Some(Cell(Min(x.value.limits.At(slot.axis) * UNIT,
                               S.LevelOn(h, slot.axis, slot.key, x.value.limits, nowMs) +
                                 x.value.reserved.At(slot.axis) * UNIT), nowMs))
            else CellAt(h, slot)
  {
    hide S.Level, Saved, CellIn, Min;
    var x := S.Find(h, id, nowMs);
    if x.Some? {
      var k := BucketKey(x.value.key);
      SavedAt(h, ModeAxes(x.value.split), k, S.AddOn(h, k, x.value.limits, nowMs, x.value.reserved), slot);
    }
  }

  lemma RefundSlot(b: Books, h: S.Hashes, lim: string -> Amounts, nowMs: int, id: string, slot: Slot)
    requires Agree(b, h, lim, nowMs)
    ensures SlotAgrees(Refund(b, nowMs, id).0, S.Refund(h, nowMs, id).0, lim(slot.key).At(slot.axis), nowMs, slot)
  {
    hide LoadBucket, S.Level, Refund, S.Refund, CellIn, SlotAgrees, Fresh, Credit;
    var b', h' := Refund(b, nowMs, id).0, S.Refund(h, nowMs, id).0;
    var cap := lim(slot.key).At(slot.axis);
    RefundWrites(b, nowMs, id, slot);
    ScriptRefundWrites(h, nowMs, id, slot);
    assert SlotAgrees(b, h, cap, nowMs, slot);
    assert ReservationAgrees(b, h, lim, nowMs, id);
    Loaded(b, h, cap, nowMs, slot);
    var s := LoadBucket(b.Shelf(slot.axis), slot.key, cap, nowMs);
    if IsPending(b, nowMs, id) && Touches(slot, b.res[id].key, b.res[id].split) {
      var r := b.res[id];
      MaskedKeepsMetered(r.split, lim(slot.key), slot.axis);
      assert r.reserved.At(slot.axis) >= 0;
      SameAdd(s, nowMs, r.reserved.At(slot.axis));
      WrittenAgrees(b, b', h, h', cap, nowMs, slot, Min(cap * UNIT, s.tokens + r.reserved.At(slot.axis) * UNIT));
    } else {
      WrittenAgrees(b, b', h, h', cap, nowMs, slot, s.tokens);
    }
  }

  lemma RefundReservation(b: Books, h: S.Hashes, lim: string -> Amounts, nowMs: int, refunded: string, id: string)
    requires Agree(b, h, lim, nowMs)
    ensures ReservationAgrees(Refund(b, nowMs, refunded).0, S.Refund(h, nowMs, refunded).0, lim, nowMs, id)
  {
    hide LoadBucket, S.Level, Saved, Credit, SlotAgrees, Masked, Shown;
    assert ReservationAgrees(b, h, lim, nowMs, id);
    assert ReservationAgrees(b, h, lim, nowMs, refunded);
  }

  // ----- borrow and return

  lemma BorrowReplies(b: Books, h: S.Hashes, lim: string -> Amounts, nowMs: int, key: Key, spec: BorrowSpec)
    requires Agree(b, h, lim, nowMs)
    ensures var limits := lim(BucketKey(key));
            Borrow(b, nowMs, key, limits, spec).1 == S.Borrow(h, nowMs, key, limits, spec).1
  {
    hide LoadBucket, S.LevelOn, Saved, S.RetryMs, Whole, Agree, Consumed, BucketKey, WantGot;
    var k := BucketKey(key);
    AxisBorrows(b, h, lim, nowMs, k, spec, Rpm);
    if Split(lim(k)) {
      AxisBorrows(b, h, lim, nowMs, k, spec, Itpm);
      AxisBorrows(b, h, lim, nowMs, k, spec, Otpm);
    } else {
      AxisBorrows(b, h, lim, nowMs, k, spec, Tpm);
    }
  }

  /** One axis of a borrow: same availability, wait, and level left by the grant. */
  lemma AxisBorrows(b: Books, h: S.Hashes, lim: string -> Amounts, nowMs: int, k: string, spec: BorrowSpec, a: Axis)
    requires Agree(b, h, lim, nowMs)
    ensures var limits, min, chunk := lim(k), spec.min.Clamped(), spec.chunk.Clamped();
            var level := S.LevelOn(h, a, k, limits, nowMs);
            var got := WantGot(Whole(level), min.At(a), chunk.At(a));
            Avail(b, a, k, limits, nowMs) == Whole(level) &&
            (Whole(level) < min.At(a) ==>
               Consumed(b, a, k, limits, nowMs, min).1.retryMs == S.RetryMs(level, limits.At(a), min.At(a))) &&
            (Whole(level) >= min.At(a) ==>
               forall g: Amounts | g.At(a) == got ::
                 ToCell(Consumed(b, a, k, limits, nowMs, g).0) == Cell(level - got * UNIT, nowMs) &&
                   0 <= level - got * UNIT)
  {
    hide LoadBucket, S.Level, S.RetryMs, Fresh, Agree, TryConsume;
    AxesLoaded(b, h, lim, nowMs, k);
    ClampedAt(spec.min, a);
    ClampedAt(spec.chunk, a);
    var s := b.Load(a, k, lim(k), nowMs);
    SameSpend(s, nowMs, spec.min.Clamped().At(a));
    if Whole(s.tokens) >= spec.min.Clamped().At(a) {
      GrantIsTaken(s, nowMs, spec.min.Clamped().At(a), spec.chunk.Clamped().At(a));
      FreshNow(s, nowMs);
    }
  }

  lemma FreshNow(s: State, nowMs: int)
    requires Fresh(s, nowMs)
    ensures s.lastMs == nowMs
  {
  }

  lemma ScriptBorrowWrites(h: S.Hashes, nowMs: int, key: Key, limits: Amounts, spec: BorrowSpec, slot: Slot)
    ensures var (h', reply) := S.Borrow(h, nowMs, key, limits, spec);
            var level := S.LevelOn(h, slot.axis, slot.key, limits, nowMs);
            CellAt(h', slot) ==
            if reply.Ok? && reply.value.allowed && Touches(slot, key, Split(limits))
            then Some(Cell(level - WantGot(Whole(level), Clamp(spec.min.At(slot.axis)),
                                           Clamp(spec.chunk.At(slot.axis))) * UNIT, nowMs))
            else CellAt(h, slot)
  {
    hide S.Level, Saved, S.RetryMs, Whole, CellIn, WantGot;
    var split, k := Split(limits), BucketKey(key);
    var got := Masked(split, S.GrantEach(h, k, limits, nowMs, BorrowSpec(spec.min.Clamped(), spec.chunk.Clamped())));
    SavedAt(h, ModeAxes(split), k, S.SpendOn(h, k, limits, nowMs, got), slot);
  }

  lemma BorrowSlot(b: Books, h: S.Hashes, lim: string -> Amounts, nowMs: int, key: Key, spec: BorrowSpec, slot: Slot)
    requires Agree(b, h, lim, nowMs)
    ensures var limits := lim(BucketKey(key));
            SlotAgrees(Borrow(b, nowMs, key, limits, spec).0, S.Borrow(h, nowMs, key, limits, spec).0,
                       lim(slot.key).At(slot.axis), nowMs, slot)
  {
    hide LoadBucket, S.Level, TryConsume, Borrow, S.Borrow, CellIn, SlotAgrees, Fresh, WantGot, Whole;
    var limits := lim(BucketKey(key));
    var b', h' := Borrow(b, nowMs, key, limits, spec).0, S.Borrow(h, nowMs, key, limits, spec).0;
    var cap := lim(slot.key).At(slot.axis);
    BorrowReplies(b, h, lim, nowMs, key, spec);
    BorrowWrites(b, nowMs, key, limits, spec, slot);
    ScriptBorrowWrites(h, nowMs, key, limits, spec, slot);
    assert SlotAgrees(b, h, cap, nowMs, slot);
    Loaded(b, h, cap, nowMs, slot);
    var s := LoadBucket(b.Shelf(slot.axis), slot.key, cap, nowMs);
    var reply := Borrow(b, nowMs, key, limits, spec).1;
    if reply.Ok? && reply.value.allowed && Touches(slot, key, Split(limits)) {
      var min, chunk := Clamp(spec.min.At(slot.axis)), Clamp(spec.chunk.At(slot.axis));
      GrantIsTaken(s, nowMs, min, chunk);
      FreshNow(s, nowMs);
      WrittenAgrees(b, b', h, h', cap, nowMs, slot, s.tokens - WantGot(Whole(s.tokens), min, chunk) * UNIT);
    } else {
      WrittenAgrees(b, b', h, h', cap, nowMs, slot, s.tokens);
    }
  }

  lemma ScriptReturnWrites(h: S.Hashes, nowMs: int, key: Key, limits: Amounts, add: Amounts, slot: Slot)
    ensures var level := S.LevelOn(h, slot.axis, slot.key, limits, nowMs);
            var after := CellAt(S.Return(h, nowMs, key, limits, add).0, slot);
            if key.subject != "" && Touches(slot, key, Split(limits))
            then after ==
              Some(Cell(Min(limits.At(slot.axis) * UNIT, level + Clamp(add.At(slot.axis)) * UNIT), nowMs)) ||
                 (after == CellAt(h, slot) && Clamp(add.At(slot.axis)) == 0)
            else after == CellAt(h, slot)
  {
    hide S.Level, Saved, CellIn, Min;
    var k := BucketKey(key);
    ClampedAt(add, slot.axis);
    SavedAt(h, ModeAxes(Split(limits)), k, S.AddOn(h, k, limits, nowMs, add.Clamped()), slot);
  }

  lemma ReturnSlot(b: Books, h: S.Hashes, lim: string -> Amounts, nowMs: int, key: Key, add: Amounts, slot: Slot)
    requires Agree(b, h, lim, nowMs)
    ensures var limits := lim(BucketKey(key));
            SlotAgrees(Return(b, nowMs, key, limits, add).0, S.Return(h, nowMs, key, limits, add).0,
                       lim(slot.key).At(slot.axis), nowMs, slot)
  {
    hide LoadBucket, S.Level, Return, S.Return, CellIn, SlotAgrees, Fresh, Credit;
    var limits := lim(BucketKey(key));
    var b', h' := Return(b, nowMs, key, limits, add).0, S.Return(h, nowMs, key, limits, add).0;
    var cap := lim(slot.key).At(slot.axis);
    ReturnWrites(b, nowMs, key, limits, add, slot);
    ScriptReturnWrites(h, nowMs, key, limits, add, slot);
    assert SlotAgrees(b, h, cap, nowMs, slot);
    Loaded(b, h, cap, nowMs, slot);
    var s := LoadBucket(b.Shelf(slot.axis), slot.key, cap, nowMs);
    var n := Clamp(add.At(slot.axis));
    if key.subject != "" && Touches(slot, key, Split(limits)) {
      SameAdd(s, nowMs, n);
      assert Credit(s, nowMs, add.At(slot.axis)) == Credit(s, nowMs, n) by {
        CreditClamped(s, nowMs, add.At(slot.axis));
      }
      WrittenAgrees(b, b', h, h', cap, nowMs, slot, Min(cap * UNIT, s.tokens + n * UNIT));
    } else {
      WrittenAgrees(b, b', h, h', cap, nowMs, slot, s.tokens);
    }
  }

  lemma CreditClamped(s: State, nowMs: int, amount: int)
    ensures Credit(s, nowMs, amount) == Credit(s, nowMs, Clamp(amount))
  {
  }

  lemma LeaseCallsKeepReservations(b: Books, h: S.Hashes, nowMs: int, key: Key, limits: Amounts, spec: BorrowSpec,
                                   add: Amounts)
    ensures Borrow(b, nowMs, key, limits, spec).0.res == b.res && S.Borrow(h, nowMs, key, limits, spec).0.res == h.res
    ensures Return(b, nowMs, key, limits, add).0.res == b.res && S.Return(h, nowMs, key, limits, add).0.res == h.res
  {
    hide TryConsume, Credit, LoadBucket, Shown, Masked, Each, FirstFailing, GotEach, ConsumeOn, CreditOn, S.Level,
         S.RetryMs,
         S.GrantEach, S.SpendOn, S.AddOn, Whole;
  }

  // ----- names

  /** The common part of the names of a key's Redis hashes. */
  function HashName(key: Key): string {
    "rl:{{{" + key.subject + "}}}:" + ModelName(key)
  }

  lemma FirstAt(s: string, c: char, rest: string)
    requires c !in s
    ensures var x := s + [c] + rest;
            x[|s|] == c && (forall i | 0 <= i < |s| :: x[i] != c) && x[..|s|] == s && x[|s| + 1..] == rest
  {
  }

  /** Two strings cut at the first c. */
  lemma CutAtFirst(s1: string, s2: string, c: char, rest1: string, rest2: string)
    requires c !in s1 && c !in s2 && s1 + [c] + rest1 == s2 + [c] + rest2
    ensures s1 == s2 && rest1 == rest2
  {
    FirstAt(s1, c, rest1);
    FirstAt(s2, c, rest2);
    assert |s1| == |s2|;
  }

  function ModelName(key: Key): string {
    if key.model == "" then "-" else key.model
  }

  lemma CutHashName(key: Key)
    ensures HashName(key)[6..] == key.subject + ['}'] + ("}}:" + ModelName(key))
  {
    var prefix, rest := "rl:{{{", key.subject + ['}'] + ("}}:" + ModelName(key));
    assert "}}}:" + ModelName(key) == ['}'] + ("}}:" + ModelName(key));
    assert HashName(key) == prefix + rest;
  }

  /** As long as no subject has a NUL or a closing brace in it, two keys share their memory buckets exactly when they
      share their Redis hashes. */
  lemma NamesAgree(key1: Key, key2: Key)
    requires '\0' !in key1.subject && '\0' !in key2.subject && '}' !in key1.subject && '}' !in key2.subject
    ensures BucketKey(key1) == BucketKey(key2) <==> HashName(key1) == HashName(key2)
  {
    hide HashName;
    var m1, m2 := ModelName(key1), ModelName(key2);
    if BucketKey(key1) == BucketKey(key2) {
      CutAtFirst(key1.subject, key2.subject, '\0', m1, m2);
      SameHashName(key1, key2);
    }
    if HashName(key1) == HashName(key2) {
      CutHashName(key1);
      CutHashName(key2);
      CutAtFirst(key1.subject, key2.subject, '}', "}}:" + m1, "}}:" + m2);
      assert ("}}:" + m1)[3..] == m1 && ("}}:" + m2)[3..] == m2;
    }
  }

  lemma SameHashName(key1: Key, key2: Key)
    requires key1.subject == key2.subject && ModelName(key1) == ModelName(key2)
    ensures HashName(key1) == HashName(key2)
  {
  }

  /** With either in a subject they may not. */
  lemma NamesDiffer()
    ensures var x, y := Key("a\0b", "c"), Key("a", "b\0c"); BucketKey(x) == BucketKey(y) && HashName(x) != HashName(y)
    ensures var x, y := Key("a}}}:m", "n"), Key("a", "m}}}:n");
            BucketKey(x) != BucketKey(y) && HashName(x) == HashName(y)
  {
    assert HashName(Key("a\0b", "c"))[7] == '\0' && HashName(Key("a", "b\0c"))[7] == '}';
    assert BucketKey(Key("a}}}:m", "n"))[1] == '}' && BucketKey(Key("a", "m}}}:n"))[1] == '\0';
  }

  // ----- runs

  /** One call: the same answer, and the stores still agree. */
  lemma CallAgrees(b: Books, h: S.Hashes, lim: string -> Amounts, nowMs: int, c: Call)
    requires Agree(b, h, lim, nowMs) && FixedCall(c, lim)
    ensures StoreReply(b, nowMs, c) == Script(h, nowMs, c).1
    ensures Agree(Exec(b, nowMs, c), Script(h, nowMs, c).0, lim, nowMs)
  {
    hide SlotAgrees, ReservationAgrees, Check, Settle, Refund, Borrow, Return, S.Check, S.Settle, S.Refund, S.Borrow,
         S.Return;
    var b', h' := Exec(b, nowMs, c), Script(h, nowMs, c).0;
    match c {
      case CheckCall(key, limits, cost, id) => CheckReplies(b, h, lim, nowMs, key, cost, id);
      case SettleCall(id, split, actual) => SettleReplies(b, h, lim, nowMs, id, split, actual);
      case RefundCall(id) => RefundReplies(b, h, lim, nowMs, id);
      case BorrowCall(key, limits, spec) => BorrowReplies(b, h, lim, nowMs, key, spec);
      case ReturnCall(key, limits, add) => ReturnReplies(b, h, nowMs, key, limits, add);
    }
    forall slot: Slot
      ensures SlotAgrees(b', h', lim(slot.key).At(slot.axis), nowMs, slot)
    {
      match c {
        case CheckCall(key, limits, cost, id) => CheckSlot(b, h, lim, nowMs, key, cost, id, slot);
        case SettleCall(id, split, actual) => SettleSlot(b, h, lim, nowMs, id, split, actual, slot);
        case RefundCall(id) => RefundSlot(b, h, lim, nowMs, id, slot);
        case BorrowCall(key, limits, spec) => BorrowSlot(b, h, lim, nowMs, key, spec, slot);
        case ReturnCall(key, limits, add) => ReturnSlot(b, h, lim, nowMs, key, add, slot);
      }
    }
    forall id: string
      ensures ReservationAgrees(b', h', lim, nowMs, id)
    {
      match c {
        case CheckCall(key, limits, cost, newId) => CheckReservation(b, h, lim, nowMs, key, cost, newId, id);
        case SettleCall(settled, split, actual) => SettleReservation(b, h, lim, nowMs, settled, split, actual, id);
        case RefundCall(refunded) => RefundReservation(b, h, lim, nowMs, refunded, id);
        case BorrowCall(key, limits, spec) =>
          LeaseCallsKeepReservations(b, h, nowMs, key, limits, spec, ZERO);
          OnlyReservationsMatter(b, b', h, h', lim, nowMs, id);
        case ReturnCall(key, limits, add) =>
          LeaseCallsKeepReservations(b, h, nowMs, key, limits, BorrowSpec(ZERO, ZERO), add);
          OnlyReservationsMatter(b, b', h, h', lim, nowMs, id);
      }
    }
  }

  lemma OnlyReservationsMatter(b: Books, b': Books, h: S.Hashes, h': S.Hashes, lim: string -> Amounts, nowMs: int,
                               id: string)
    requires b.res == b'.res && h.res == h'.res && Agree(b, h, lim, nowMs)
    ensures ReservationAgrees(b', h', lim, nowMs, id)
  {
    hide SlotAgrees;
    assert ReservationAgrees(b, h, lim, nowMs, id);
  }

  lemma ReturnReplies(b: Books, h: S.Hashes, nowMs: int, key: Key, limits: Amounts, add: Amounts)
    ensures Return(b, nowMs, key, limits, add).1 == S.Return(h, nowMs, key, limits, add).1
  {
  }

  function StoreReplies(b: Books, run: seq<Timed>): seq<Reply>
    decreases |run|
  {
    if run == [] then []
    else [StoreReply(b, run[0].nowMs, run[0].call)] + StoreReplies(Exec(b, run[0].nowMs, run[0].call), run[1..])
  }

  function ScriptReplies(h: S.Hashes, run: seq<Timed>): seq<Reply>
    decreases |run|
  {
    if run == [] then []
    else [Script(h, run[0].nowMs, run[0].call).1] + ScriptReplies(Script(h, run[0].nowMs, run[0].call).0, run[1..])
  }

  predicate FixedRun(startMs: int, run: seq<Timed>, lim: string -> Amounts)
    decreases |run|
  {
    run == [] || (startMs <= run[0].nowMs && FixedCall(run[0].call, lim) && FixedRun(run[0].nowMs, run[1..], lim))
  }

  lemma {:induction false} RunsAgree(b: Books, h: S.Hashes, lim: string -> Amounts, startMs: int, run: seq<Timed>)
    requires Agree(b, h, lim, startMs) && FixedRun(startMs, run, lim)
    ensures StoreReplies(b, run) == ScriptReplies(h, run)
    decreases |run|
  {
    hide Agree, Exec, Script, StoreReply, FixedCall;
    if run != [] {
      AgreeLater(b, h, lim, startMs, run[0].nowMs);
      CallAgrees(b, h, lim, run[0].nowMs, run[0].call);
      RunsAgree(Exec(b, run[0].nowMs, run[0].call), Script(h, run[0].nowMs, run[0].call).0, lim, run[0].nowMs,
                run[1..]);
    }
  }

  /** From empty stores, with non-negative limits fixed per key and a clock that does not go back, every run
      of calls gets the same replies from both implementations. */
  lemma SameAnswers(lim: string -> Amounts, startMs: int, run: seq<Timed>)
    requires 0 < startMs && FixedRun(startMs, run, lim) && forall k: string :: lim(k).NonNegative()
    ensures StoreReplies(EMPTY, run) == ScriptReplies(S.NO_HASHES, run)
  {
    assert Agree(EMPTY, S.NO_HASHES, lim, startMs) by {
      forall slot: Slot
        ensures SlotAgrees(EMPTY, S.NO_HASHES, lim(slot.key).At(slot.axis), startMs, slot)
      {
        assert lim(slot.key).NonNegative();
      }
    }
    RunsAgree(EMPTY, S.NO_HASHES, lim, startMs, run);
  }
}
