/** How much a run of store calls can take out of one bucket.  The potential of a bucket is the most
    it could still give; calls pay for what they take out of it and only the clock fills it. */
module StoreLedger {
  import opened Quota
  import opened Bucket
  import opened BucketLaws
  import opened StoreSpec
  import opened Sums

  /** What the bucket could hold if it refilled at rate m up to m tokens; never negative. */
  function Potential(cell: Option<Cell>, nowMs: int, m: nat): int {
    if cell.None? || cell.value.lastMs == 0 then m * UNIT
    else Max(0, Min(m * UNIT, cell.value.tokens + Gain(m, Max(0, nowMs - cell.value.lastMs))))
  }

  /** Loading does not go through a backward clock step with more in the bucket than its capacity. */
  predicate Calm(shelf: map<string, Cell>, k: string, capacity: int, nowMs: int) {
    k in shelf && shelf[k].lastMs != 0 && nowMs < shelf[k].lastMs ==> shelf[k].tokens <= capacity * UNIT
  }

  lemma LoadWithinPotential(shelf: map<string, Cell>, k: string, capacity: int, nowMs: int, m: nat)
    requires 0 < nowMs && capacity <= m && Calm(shelf, k, capacity, nowMs)
    ensures var s := LoadBucket(shelf, k, capacity, nowMs);
            Fresh(s, nowMs) && s.capacity == capacity && Max(0, s.tokens) <= Potential(CellIn(shelf, k), nowMs, m)
  {
    if k in shelf && shelf[k].lastMs != 0 && capacity > 0 && nowMs >= shelf[k].lastMs {
      GainIsMonotone(capacity, m, nowMs - shelf[k].lastMs);
    }
  }

  lemma StoredPotential(t: State, nowMs: int, m: nat)
    requires 0 < nowMs && t.lastMs == nowMs
    ensures Potential(Some(ToCell(t)), nowMs, m) <= Max(0, t.tokens)
  {
  }

  /** A consumption takes exactly its cost, or nothing. */
  lemma ConsumeMoves(s: State, nowMs: int, cost: nat)
    requires Fresh(s, nowMs)
    ensures var (t, out) := TryConsume(s, nowMs, cost);
            t.lastMs == nowMs && t.tokens <= Max(0, s.capacity * UNIT) &&
              (out.allowed ==> 0 <= t.tokens == s.tokens - cost * UNIT) && (!out.allowed ==> t == s)
  {
  }

  lemma CreditMoves(s: State, nowMs: int, amount: int)
    requires Fresh(s, nowMs)
    ensures var t := Credit(s, nowMs, amount);
            t.lastMs == nowMs && t.tokens <= Max(0, s.capacity * UNIT) &&
            Max(0, t.tokens) <= Max(0, s.tokens) + Clamp(amount) * UNIT
  {
  }

  /** Settling an axis takes actual - overshoot - reserved out of the bucket, or less. */
  lemma SettleMoves(s: State, nowMs: int, reserved: int, actual: int)
    requires Fresh(s, nowMs)
    ensures var (t, overshoot) := SettleAxis(s, nowMs, reserved, actual);
            t.lastMs == nowMs && t.tokens <= Max(0, s.capacity * UNIT) &&
            (actual - overshoot - reserved) * UNIT + Max(0, t.tokens) <= Max(0, s.tokens)
  {
  }

  /** Grants are really taken: the debit whose verdict Borrow ignores goes through, for an amount
      between the minimum and the larger of minimum and chunk. */
  lemma GrantIsTaken(s: State, nowMs: int, min: nat, chunk: nat)
    requires Fresh(s, nowMs) && Whole(s.tokens) >= min
    ensures var got := WantGot(Whole(s.tokens), min, chunk);
            min <= got <= Max(min, chunk) && got * UNIT <= s.tokens <= Max(0, s.capacity * UNIT) &&
            TryConsume(s, nowMs, got).0 == s.(tokens := s.tokens - got * UNIT)
  {
  }

  // ----- what one call takes out of one bucket, read off its reply

  predicate Touches(slot: Slot, key: Key, split: bool) {
    BucketKey(key) == slot.key && Metered(split, slot.axis)
  }

  predicate IsPending(b: Books, nowMs: int, id: string) {
    var live := Unexpired(b.res, nowMs);
    id in live && live[id].status == Pending
  }

  /** Tokens debited minus tokens credited (before the cap) by a call. */
  function Flow(b: Books, nowMs: int, c: Call, slot: Slot): int {
    match c
    case CheckCall(key, limits, cost, id) =>
      var reply := Check(b, nowMs, key, limits, cost, id).1;
      if reply.Ok? && reply.value.allowed && Touches(slot, key, Split(limits)) then Clamp(cost.At(slot.axis)) else 0
    case SettleCall(id, split, actual) =>
      if IsPending(b, nowMs, id) && b.res[id].split == split && Touches(slot, b.res[id].key, split) &&
        slot.axis != Rpm then
        var reply := Settle(b, nowMs, id, split, actual).1;
        Clamp(actual.At(slot.axis)) - reply.value.overshoot.At(slot.axis) - b.res[id].reserved.At(slot.axis)
      else 0
    case RefundCall(id) =>
      if IsPending(b, nowMs, id) && Touches(slot, b.res[id].key, b.res[id].split) then
        -Clamp(b.res[id].reserved.At(slot.axis))
      else 0
    case BorrowCall(key, limits, spec) =>
      var reply := Borrow(b, nowMs, key, limits, spec).1;
      if reply.Ok? && BucketKey(key) == slot.key then reply.value.got.At(slot.axis) else 0
    case ReturnCall(key, limits, add) =>
      if key.subject != "" && Touches(slot, key, Split(limits)) then -Clamp(add.At(slot.axis)) else 0
  }

  /** The capacity a call loads the bucket with, if it loads it. */
  function CapacityUsed(b: Books, nowMs: int, c: Call, slot: Slot): Option<int> {
    match c
    case CheckCall(key, limits, _, _) =>
      if Touches(slot, key, Split(limits)) then Some(limits.At(slot.axis)) else None
    case BorrowCall(key, limits, _) =>
      if Touches(slot, key, Split(limits)) then Some(limits.At(slot.axis)) else None
    case ReturnCall(key, limits, _) =>
      if Touches(slot, key, Split(limits)) then Some(limits.At(slot.axis)) else None
    case SettleCall(id, _, _) => SnapshotCapacity(b, nowMs, id, slot)
    case RefundCall(id) => SnapshotCapacity(b, nowMs, id, slot)
  }

  function SnapshotCapacity(b: Books, nowMs: int, id: string, slot: Slot): Option<int> {
    if IsPending(b, nowMs, id) && Touches(slot, b.res[id].key, b.res[id].split)
      then Some(b.res[id].limits.At(slot.axis))
    else None
  }

  predicate CalmCall(b: Books, nowMs: int, c: Call, slot: Slot, m: nat) {
    var cap := CapacityUsed(b, nowMs, c, slot);
    cap.Some? ==> cap.value <= m && Calm(b.Shelf(slot.axis), slot.key, cap.value, nowMs)
  }

  function PotentialAt(b: Books, nowMs: int, slot: Slot, m: nat): int {
    Potential(CellAt(b, slot), nowMs, m)
  }

  /** A call either leaves the bucket alone or stores it for this instant, within the capacity it used. */
  predicate StoresNow(b: Books, nowMs: int, c: Call, slot: Slot) {
    var cap := CapacityUsed(b, nowMs, c, slot);
    var before, after := CellAt(b, slot), CellAt(Exec(b, nowMs, c), slot);
    after == before ||
    (cap.Some? && after.Some? && after.value.lastMs == nowMs && after.value.tokens <= Max(0, cap.value * UNIT))
  }

  predicate Pays(b: Books, nowMs: int, c: Call, slot: Slot, m: nat) {
    StoresNow(b, nowMs, c, slot) &&
    Flow(b, nowMs, c, slot) * UNIT + PotentialAt(Exec(b, nowMs, c), nowMs, slot, m) <= PotentialAt(b, nowMs, slot, m)
  }

  /** Every call pays for what it takes out of the potential of the bucket. */
  lemma CallPays(b: Books, nowMs: int, c: Call, slot: Slot, m: nat)
    requires 0 < nowMs && CalmCall(b, nowMs, c, slot, m)
    ensures Pays(b, nowMs, c, slot, m)
  {
    hide Pays;
    match c {
      case CheckCall(key, limits, cost, id) => CheckPays(b, nowMs, key, limits, cost, id, slot, m);
      case SettleCall(id, split, actual) => SettlePays(b, nowMs, id, split, actual, slot, m);
      case RefundCall(id) => RefundPays(b, nowMs, id, slot, m);
      case BorrowCall(key, limits, spec) => BorrowPays(b, nowMs, key, limits, spec, slot, m);
      case ReturnCall(key, limits, add) => ReturnPays(b, nowMs, key, limits, add, slot, m);
    }
  }

  /** What a Check leaves in a bucket. */
  lemma CheckWrites(b: Books, nowMs: int, key: Key, limits: Amounts, cost: Amounts, id: string, slot: Slot)
    ensures var (b', reply) := Check(b, nowMs, key, limits, cost, id);
            var moved := TryConsume(b.Load(slot.axis, slot.key, limits, nowMs), nowMs, Clamp(cost.At(slot.axis)));
            if reply.Ok? && reply.value.allowed && Touches(slot, key, Split(limits))
            then moved.1.allowed && CellAt(b', slot) == Some(ToCell(moved.0))
            else CellAt(b', slot) == CellAt(b, slot)
  {
    hide TryConsume, LoadBucket, Saved, CellIn;
    var b1, k, cost1 := Purged(b, nowMs), BucketKey(key), cost.Clamped();
    SavedAt(b1, ModeAxes(Split(limits)), k, ConsumeOn(b1, k, limits, nowMs, cost1), slot);
  }

  lemma CheckPays(b: Books, nowMs: int, key: Key, limits: Amounts, cost: Amounts, id: string, slot: Slot, m: nat)
    requires 0 < nowMs && CalmCall(b, nowMs, CheckCall(key, limits, cost, id), slot, m)
    ensures Pays(b, nowMs, CheckCall(key, limits, cost, id), slot, m)
  {
    hide TryConsume, LoadBucket, Potential, Refill, Check, CellIn;
    CheckWrites(b, nowMs, key, limits, cost, id, slot);
    if Touches(slot, key, Split(limits)) {
      LoadWithinPotential(b.Shelf(slot.axis), slot.key, limits.At(slot.axis), nowMs, m);
      var s := b.Load(slot.axis, slot.key, limits, nowMs);
      ConsumeMoves(s, nowMs, Clamp(cost.At(slot.axis)));
      StoredPotential(TryConsume(s, nowMs, Clamp(cost.At(slot.axis))).0, nowMs, m);
    }
  }

  /** What a settlement leaves in a bucket, and the overshoot it reports. */
  lemma SettleWrites(b: Books, nowMs: int, id: string, split: bool, actual: Amounts, slot: Slot)
    ensures var (b', reply) := Settle(b, nowMs, id, split, actual);
            if IsPending(b, nowMs, id) && b.res[id].split == split && Touches(slot, b.res[id].key, split) &&
              slot.axis != Rpm
            then
              var r := b.res[id];
              var moved := SettleAxis(b.Load(slot.axis, slot.key, r.limits, nowMs), nowMs,
                                      r.reserved.At(slot.axis), Clamp(actual.At(slot.axis)));
              reply.Ok? && reply.value.overshoot.At(slot.axis) == moved.1 && CellAt(b', slot) == Some(ToCell(moved.0))
            else CellAt(b', slot) == CellAt(b, slot)
  {
    hide SettleAxis, LoadBucket, Saved, CellIn, Shown, Whole, Refill;
    var b1 := Purged(b, nowMs);
    if id in b1.res {
      var r := b1.res[id];
      var actual1 := Masked(split, actual.Clamped()).(rpm := 0);
      SavedAt(b1, TokenAxes(split), BucketKey(r.key), SettleOn(b1, r, nowMs, actual1), slot);
    }
  }

  lemma SettlePays(b: Books, nowMs: int, id: string, split: bool, actual: Amounts, slot: Slot, m: nat)
    requires 0 < nowMs && CalmCall(b, nowMs, SettleCall(id, split, actual), slot, m)
    ensures Pays(b, nowMs, SettleCall(id, split, actual), slot, m)
  {
    hide SettleAxis, LoadBucket, Potential, Refill, Settle, CellIn;
    SettleWrites(b, nowMs, id, split, actual, slot);
    if IsPending(b, nowMs, id) && b.res[id].split == split && Touches(slot, b.res[id].key, split) && slot.axis != Rpm {
      var r := b.res[id];
      LoadWithinPotential(b.Shelf(slot.axis), slot.key, r.limits.At(slot.axis), nowMs, m);
      var s := b.Load(slot.axis, slot.key, r.limits, nowMs);
      SettleMoves(s, nowMs, r.reserved.At(slot.axis), Clamp(actual.At(slot.axis)));
      StoredPotential(SettleAxis(s, nowMs, r.reserved.At(slot.axis), Clamp(actual.At(slot.axis))).0, nowMs, m);
    }
  }

  lemma RefundWrites(b: Books, nowMs: int, id: string, slot: Slot)
    ensures CellAt(Refund(b, nowMs, id).0, slot) ==
            if IsPending(b, nowMs, id) && Touches(slot, b.res[id].key, b.res[id].split) then
              var r := b.res[id];
              Some(ToCell(Credit(b.Load(slot.axis, slot.key, r.limits, nowMs), nowMs, r.reserved.At(slot.axis))))
            else CellAt(b, slot)
  {
    hide Credit, LoadBucket, Saved, CellIn;
    var b1 := Purged(b, nowMs);
    if id in b1.res {
      var r := b1.res[id];
      var k := BucketKey(r.key);
      SavedAt(b1, ModeAxes(r.split), k, CreditOn(b1, k, r.limits, nowMs, r.reserved), slot);
    }
  }

  lemma RefundPays(b: Books, nowMs: int, id: string, slot: Slot, m: nat)
    requires 0 < nowMs && CalmCall(b, nowMs, RefundCall(id), slot, m)
    ensures Pays(b, nowMs, RefundCall(id), slot, m)
  {
    hide Credit, LoadBucket, Potential, Refill, Refund, CellIn;
    RefundWrites(b, nowMs, id, slot);
    if IsPending(b, nowMs, id) && Touches(slot, b.res[id].key, b.res[id].split) {
      var r := b.res[id];
      LoadWithinPotential(b.Shelf(slot.axis), slot.key, r.limits.At(slot.axis), nowMs, m);
      var s := b.Load(slot.axis, slot.key, r.limits, nowMs);
      CreditMoves(s, nowMs, r.reserved.At(slot.axis));
      StoredPotential(Credit(s, nowMs, r.reserved.At(slot.axis)), nowMs, m);
    }
  }

  /** What a Borrow leaves in a bucket; a refused one leaves everything alone. */
  lemma BorrowWrites(b: Books, nowMs: int, key: Key, limits: Amounts, spec: BorrowSpec, slot: Slot)
    ensures var (b', reply) := Borrow(b, nowMs, key, limits, spec);
            var min, chunk := Clamp(spec.min.At(slot.axis)), Clamp(spec.chunk.At(slot.axis));
            var s := b.Load(slot.axis, slot.key, limits, nowMs);
            var got := WantGot(Whole(s.tokens), min, chunk);
            if reply.Ok? && reply.value.allowed && Touches(slot, key, Split(limits))
            then Whole(s.tokens) >= min && reply.value.got.At(slot.axis) == got &&
                 CellAt(b', slot) == Some(ToCell(TryConsume(s, nowMs, got).0))
            else CellAt(b', slot) == CellAt(b, slot) &&
                 (reply.Ok? && BucketKey(key) == slot.key ==> reply.value.got.At(slot.axis) == 0)
  {
    hide TryConsume, LoadBucket, WantGot, Whole, Saved, CellIn;
    var split, k := Split(limits), BucketKey(key);
    var got := Masked(split, GotEach(b, k, limits, nowMs, BorrowSpec(spec.min.Clamped(), spec.chunk.Clamped())));
    SavedAt(b, ModeAxes(split), k, ConsumeOn(b, k, limits, nowMs, got), slot);
  }

  lemma BorrowPays(b: Books, nowMs: int, key: Key, limits: Amounts, spec: BorrowSpec, slot: Slot, m: nat)
    requires 0 < nowMs && CalmCall(b, nowMs, BorrowCall(key, limits, spec), slot, m)
    ensures Pays(b, nowMs, BorrowCall(key, limits, spec), slot, m)
  {
    hide TryConsume, LoadBucket, Potential, Refill, WantGot, Borrow, CellIn;
    BorrowWrites(b, nowMs, key, limits, spec, slot);
    if Touches(slot, key, Split(limits)) {
      LoadWithinPotential(b.Shelf(slot.axis), slot.key, limits.At(slot.axis), nowMs, m);
      var s := b.Load(slot.axis, slot.key, limits, nowMs);
      var min, chunk := Clamp(spec.min.At(slot.axis)), Clamp(spec.chunk.At(slot.axis));
      if Whole(s.tokens) >= min {
        GrantIsTaken(s, nowMs, min, chunk);
        StoredPotential(TryConsume(s, nowMs, WantGot(Whole(s.tokens), min, chunk)).0, nowMs, m);
      }
    }
  }

  lemma ReturnWrites(b: Books, nowMs: int, key: Key, limits: Amounts, add: Amounts, slot: Slot)
    ensures CellAt(Return(b, nowMs, key, limits, add).0, slot) ==
            if key.subject != "" && !(add.rpm <= 0 && add.tpm <= 0 && add.itpm <= 0 && add.otpm <= 0) &&
              Touches(slot, key, Split(limits))
            then Some(ToCell(Credit(b.Load(slot.axis, slot.key, limits, nowMs), nowMs, add.At(slot.axis))))
            else CellAt(b, slot)
  {
    hide Credit, LoadBucket, Saved, CellIn;
    var k := BucketKey(key);
    SavedAt(b, ModeAxes(Split(limits)), k, CreditOn(b, k, limits, nowMs, add), slot);
  }

  lemma ReturnPays(b: Books, nowMs: int, key: Key, limits: Amounts, add: Amounts, slot: Slot, m: nat)
    requires 0 < nowMs && CalmCall(b, nowMs, ReturnCall(key, limits, add), slot, m)
    ensures Pays(b, nowMs, ReturnCall(key, limits, add), slot, m)
  {
    hide Credit, LoadBucket, Potential, Refill, Return, CellIn;
    ReturnWrites(b, nowMs, key, limits, add, slot);
    if Touches(slot, key, Split(limits)) {
      LoadWithinPotential(b.Shelf(slot.axis), slot.key, limits.At(slot.axis), nowMs, m);
      var s := b.Load(slot.axis, slot.key, limits, nowMs);
      CreditMoves(s, nowMs, add.At(slot.axis));
      StoredPotential(Credit(s, nowMs, add.At(slot.axis)), nowMs, m);
    }
  }

  // ----- what reservations hold

  /** What a reservation keeps out of its buckets: the reserved amount while pending, the actual amount
      up to the recorded overshoot once settled, nothing once refunded.  Requests are never settled. */
  function Hold(r: Reservation, a: Axis): int {
    match r.status
    case Pending => r.reserved.At(a)
    case Refunded => 0
    case Settled => if a == Rpm then r.reserved.At(a) else r.actual.At(a) - r.last.overshoot.At(a)
  }

  function HoldOn(slot: Slot): Reservation -> int {
    (r: Reservation) => if Touches(slot, r.key, r.split) then Hold(r, slot.axis) else 0
  }

  ghost function Holds(res: map<string, Reservation>, slot: Slot): int {
    Sum(res, HoldOn(slot))
  }

  function ExpiredPart(res: map<string, Reservation>, nowMs: int): map<string, Reservation> {
    map id | id in res && nowMs > res[id].expiresAt :: res[id]
  }

  lemma PurgeSplitsHolds(res: map<string, Reservation>, nowMs: int, slot: Slot)
    ensures Holds(res, slot) == Holds(Unexpired(res, nowMs), slot) + Holds(ExpiredPart(res, nowMs), slot)
  {
    SumSplit(res, ExpiredPart(res, nowMs), HoldOn(slot));
    assert res - ExpiredPart(res, nowMs).Keys == Unexpired(res, nowMs);
  }

  /** Holds of reservations a call forgets: the expired ones, and one overwritten by a new id. */
  ghost function Forgotten(b: Books, nowMs: int, c: Call, slot: Slot): int {
    match c
    case CheckCall(key, limits, cost, id) =>
      var live := Unexpired(b.res, nowMs);
      if !ValidLimits(limits) then 0
      else
        var reply := Check(b, nowMs, key, limits, cost, id).1;
        Holds(ExpiredPart(b.res, nowMs), slot) +
        (if reply.Ok? && reply.value.allowed && id in live then HoldOn(slot)(live[id]) else 0)
    case SettleCall(_, _, _) => Holds(ExpiredPart(b.res, nowMs), slot)
    case RefundCall(_) => Holds(ExpiredPart(b.res, nowMs), slot)
    case BorrowCall(_, _, _) => 0
    case ReturnCall(_, _, _) => 0
  }

  predicate WellFormed(b: Books) {
    forall id | id in b.res :: b.res[id].reserved.NonNegative()
  }

  /** Reservations account for exactly what the reservation calls took; leases touch no reservation. */
  lemma HoldsFollowFlow(b: Books, nowMs: int, c: Call, slot: Slot)
    requires WellFormed(b)
    ensures WellFormed(Exec(b, nowMs, c))
    ensures Holds(Exec(b, nowMs, c).res, slot) + Forgotten(b, nowMs, c, slot) ==
            Holds(b.res, slot) + (if c.BorrowCall? || c.ReturnCall? then 0 else Flow(b, nowMs, c, slot))
  {
    hide Check, Settle, Refund, Flow, Holds, IsPending, Unexpired, HoldOn;
    PurgeSplitsHolds(b.res, nowMs, slot);
    match c {
      case CheckCall(key, limits, cost, id) => CheckHolds(b, nowMs, key, limits, cost, id, slot);
      case SettleCall(id, split, actual) => SettleHolds(b, nowMs, id, split, actual, slot);
      case RefundCall(id) => RefundHolds(b, nowMs, id, slot);
      case BorrowCall(key, limits, spec) =>
      case ReturnCall(key, limits, add) =>
    }
  }

  /** What a Check does to the reservations. */
  lemma CheckRecords(b: Books, nowMs: int, key: Key, limits: Amounts, cost: Amounts, id: string)
    ensures var (b', reply) := Check(b, nowMs, key, limits, cost, id);
            var split := Split(limits);
            if reply.Ok? && reply.value.allowed then
              b'.res ==
                Unexpired(b.res,
                          nowMs)[id := Reservation(key, split, Masked(split, cost.Clamped()), Masked(split, limits),
                                                   ZERO,
                                                                  Pending, NO_DECISION, nowMs + RESERVATION_TTL)] &&
              ValidLimits(limits)
            else if ValidLimits(limits) then b' == Purged(b, nowMs) else b' == b
  {
    hide TryConsume, LoadBucket, Shown, Masked, Each, FirstFailing, Unexpired, Consumed, ConsumeOn;
  }

  /** What a settlement does to them. */
  lemma SettleRecords(b: Books, nowMs: int, id: string, split: bool, actual: Amounts)
    ensures var (b', reply) := Settle(b, nowMs, id, split, actual);
            if IsPending(b, nowMs, id) && b.res[id].split == split then
              reply.Ok? &&
              b'.res ==
                Unexpired(b.res,
                          nowMs)[id := b.res[id].(status := Settled,
                                                  actual := Masked(split, actual.Clamped()).(rpm := 0),
                                                                 last := reply.value,
                                                                   expiresAt := nowMs + RESERVATION_TTL)]
            else b' == Purged(b, nowMs)
  {
    hide SettleAxis, LoadBucket, Shown, Masked, Each, Whole, SettleOn;
  }

  /** What a refund does to them. */
  lemma RefundRecords(b: Books, nowMs: int, id: string)
    ensures var b' := Refund(b, nowMs, id).0;
            if IsPending(b, nowMs, id) then
              b'.res ==
                Unexpired(b.res, nowMs)[id := b.res[id].(status := Refunded, expiresAt := nowMs + RESERVATION_TTL)]
            else b' == Purged(b, nowMs)
  {
    hide Credit, LoadBucket, CreditOn;
  }

  lemma CheckHolds(b: Books, nowMs: int, key: Key, limits: Amounts, cost: Amounts, id: string, slot: Slot)
    requires WellFormed(b)
    ensures var b' := Check(b, nowMs, key, limits, cost, id).0;
            var live := Unexpired(b.res, nowMs);
            var flow := Flow(b, nowMs, CheckCall(key, limits, cost, id), slot);
            WellFormed(b') &&
            if ValidLimits(limits) then
              Holds(b'.res, slot) == Holds(live, slot) + flow -
                (var reply := Check(b, nowMs, key, limits, cost, id).1;
                 if reply.Ok? && reply.value.allowed && id in live then HoldOn(slot)(live[id]) else 0)
            else b' == b && flow == 0
  {
    hide Check, Shown;
    CheckRecords(b, nowMs, key, limits, cost, id);
    var (b', reply) := Check(b, nowMs, key, limits, cost, id);
    if reply.Ok? && reply.value.allowed {
      SumUpdate(Unexpired(b.res, nowMs), id, b'.res[id], HoldOn(slot));
    }
  }

  lemma SettleHolds(b: Books, nowMs: int, id: string, split: bool, actual: Amounts, slot: Slot)
    requires WellFormed(b)
    ensures var b' := Settle(b, nowMs, id, split, actual).0;
            WellFormed(b') &&
            Holds(b'.res, slot) == Holds(Unexpired(b.res, nowMs), slot) +
              Flow(b, nowMs, SettleCall(id, split, actual), slot)
  {
    hide Settle;
    SettleRecords(b, nowMs, id, split, actual);
    SettleWrites(b, nowMs, id, split, actual, slot);
    var b' := Settle(b, nowMs, id, split, actual).0;
    if IsPending(b, nowMs, id) && b.res[id].split == split {
      SumUpdate(Unexpired(b.res, nowMs), id, b'.res[id], HoldOn(slot));
    }
  }

  lemma RefundHolds(b: Books, nowMs: int, id: string, slot: Slot)
    requires WellFormed(b)
    ensures var b' := Refund(b, nowMs, id).0;
            WellFormed(b') &&
            Holds(b'.res, slot) == Holds(Unexpired(b.res, nowMs), slot) + Flow(b, nowMs, RefundCall(id), slot)
  {
    hide Refund;
    RefundRecords(b, nowMs, id);
    var b' := Refund(b, nowMs, id).0;
    if IsPending(b, nowMs, id) {
      SumUpdate(Unexpired(b.res, nowMs), id, b'.res[id], HoldOn(slot));
    }
  }

  // ----- where reservations come from

  lemma MaskedKeepsMetered(split: bool, x: Amounts, a: Axis)
    requires Metered(split, a)
    ensures Masked(split, x).At(a) == x.At(a)
  {
  }

  predicate SameTerms(r: Reservation, r': Reservation) {
    r.key == r'.key && r.split == r'.split && r.limits == r'.limits && r.reserved == r'.reserved
  }

  lemma CheckOrigin(b: Books, nowMs: int, key: Key, limits: Amounts, cost: Amounts, newId: string, id: string)
    requires id in Check(b, nowMs, key, limits, cost, newId).0.res
    ensures var r' := Check(b, nowMs, key, limits, cost, newId).0.res[id];
            (id in b.res && b.res[id] == r') ||
            (newId == id && r'.key == key && r'.split == Split(limits) && r'.limits == Masked(Split(limits), limits) &&
             r'.reserved == Masked(Split(limits), cost.Clamped()))
  {
    hide Check, Masked;
    CheckRecords(b, nowMs, key, limits, cost, newId);
  }

  lemma SettleOrigin(b: Books, nowMs: int, settled: string, split: bool, actual: Amounts, id: string)
    requires id in Settle(b, nowMs, settled, split, actual).0.res
    ensures id in b.res && SameTerms(b.res[id], Settle(b, nowMs, settled, split, actual).0.res[id])
  {
    hide Settle, Masked;
    SettleRecords(b, nowMs, settled, split, actual);
  }

  lemma RefundOrigin(b: Books, nowMs: int, refunded: string, id: string)
    requires id in Refund(b, nowMs, refunded).0.res
    ensures id in b.res && SameTerms(b.res[id], Refund(b, nowMs, refunded).0.res[id])
  {
    hide Refund;
    RefundRecords(b, nowMs, refunded);
  }

  /** A reservation in the store keeps its terms; only an admitting Check writes new ones. */
  lemma ReservationOrigin(b: Books, nowMs: int, c: Call, id: string)
    requires id in Exec(b, nowMs, c).res
    ensures var r' := Exec(b, nowMs, c).res[id];
            (id in b.res && SameTerms(b.res[id], r')) ||
            (c.CheckCall? && c.id == id && r'.key == c.key && r'.split == Split(c.limits) &&
             r'.limits == Masked(r'.split, c.limits) && r'.reserved == Masked(r'.split, c.cost.Clamped()))
  {
    hide Check, Settle, Refund, Masked;
    match c {
      case CheckCall(key, limits, cost, newId) => CheckOrigin(b, nowMs, key, limits, cost, newId, id);
      case SettleCall(settled, split, actual) => SettleOrigin(b, nowMs, settled, split, actual, id);
      case RefundCall(refunded) => RefundOrigin(b, nowMs, refunded, id);
      case BorrowCall(_, _, _) =>
      case ReturnCall(_, _, _) =>
    }
  }
}
