/** What limiter calls guarantee when nothing interferes: allowed borrows admit, cached refusals agree with
    the store, replays, and closing. */
module LimiterLaws {
  import opened Quota
  import opened Bucket
  import opened BucketLaws
  import opened StoreSpec
  import opened StoreLedger
  import opened StoreRuns
  import opened StoreLaws
  import opened Waiting
  import opened PoolSpec
  import opened PoolLedger
  import opened FleetLedger
  import L = LimiterSpec

  // ----- direct checks

  /** What the store answers a direct check, if an id could be made and the answer arrives. */
  function Answer(b: Books, env: L.Env, key: Key, limits: Amounts, cost: Amounts): Option<Result<Decision>> {
    if env.ids(0).None? || !env.fault.NoFault? then None
    else Some(Check(b, env.storeMs, key, limits, cost, env.ids(0).value).1)
  }

  /** Without a pool a request is admitted exactly when the store admits it and the answer arrives, or when the
      limiter fails open and there is no id, no answer or an error; only the former leaves a reservation. */
  lemma DirectAdmission(b: Books, env: L.Env, failOpen: bool, key: Key, limits: Amounts, cost: Amounts)
    ensures var d := L.CheckDirect(b, env, failOpen, key, limits, cost).1;
            var answer := Answer(b, env, key, limits, cost);
            (d.allowed <==>
               (answer.Some? && Admits(answer.value)) || (failOpen && (answer.None? || answer.value.Err?))) &&
            (d.allowed && d.reservationId != "" <==> answer.Some? && Admits(answer.value))
  {
    hide Check;
    if env.ids(0).Some? {
      RepliesName(b, env.storeMs, key, limits, cost, env.ids(0).value);
    }
  }

  lemma RepliesName(b: Books, nowMs: int, key: Key, limits: Amounts, cost: Amounts, id: string)
    ensures var reply := Check(b, nowMs, key, limits, cost, id).1;
            Admits(reply) ==> reply.value.reservationId == id && id != ""
  {
    hide TryConsume, LoadBucket, Saved, Each, FirstFailing, Shown;
  }

  // ----- borrowing

  /** An allowed Borrow grants at least the minimum on every axis of the mode. */
  lemma GrantCovers(b: Books, nowMs: int, key: Key, limits: Amounts, spec: BorrowSpec)
    requires var reply := Borrow(b, nowMs, key, limits, spec).1;
             reply.Ok? && reply.value.allowed && spec.min.NonNegative()
    ensures var got := Borrow(b, nowMs, key, limits, spec).1.value.got;
            got.NonNegative() && Covers(got, spec.min, Split(limits))
  {
    hide Borrow, TryConsume, LoadBucket, Whole;
    GrantIsSound(b, nowMs, key, limits, spec);
    var k := BucketKey(key);
    BorrowWrites(b, nowMs, key, limits, spec, Slot(Rpm, k));
    if Split(limits) {
      BorrowWrites(b, nowMs, key, limits, spec, Slot(Itpm, k));
      BorrowWrites(b, nowMs, key, limits, spec, Slot(Otpm, k));
    } else {
      BorrowWrites(b, nowMs, key, limits, spec, Slot(Tpm, k));
    }
  }

  /** What a pool that is credited and then debited does. */
  lemma CreditThenDebit(p: Pool, t1: int, t2: int, key: Key, limits: Amounts, got: Amounts, cost: Amounts, id: string)
    requires Sound(p) && got.NonNegative() && cost.NonNegative() && Covers(got, cost, Split(limits))
    ensures var k := BucketKey(key);
            var had := if Live(p, k, t1) then p.leases[k].balance else ZERO;
            var (q, decision) := TryDebit(CreditLease(p, t1, key, limits, got), t2, key, limits, cost, id);
            (decision.Some? <==> t2 < t1 + p.cfg.leaseTtlMs) &&
            (decision.Some? ==>
               decision.value.allowed && decision.value.reservationId == id &&
               k in q.leases && q.leases[k].balance == Minus(had.Plus(got), Masked(Split(limits), cost)) &&
               q.leases[k].balance.NonNegative() &&
               id in q.res && q.res[id].status == Pending && q.res[id].key == key && q.res[id].limits == limits &&
               q.res[id].reserved == cost)
  {
  }

  /** Using a lease renews it: after a credit, a debit, a settlement or a refund it lives for one more lease
      lifetime, and no longer. */
  lemma UseRenewsLease(p: Pool, nowMs: int, key: Key, limits: Amounts, amounts: Amounts, id: string, split: bool,
                       t: int)
    ensures Live(CreditLease(p, nowMs, key, limits, amounts), BucketKey(key), t) <==> t < nowMs + p.cfg.leaseTtlMs
    ensures var (q, decision) := TryDebit(p, nowMs, key, limits, amounts, id);
            decision.Some? ==> (Live(q, BucketKey(key), t) <==> t < nowMs + p.cfg.leaseTtlMs)
    ensures ActsOn(p, nowMs, id, split) ==>
              (Live(SettleLocal(p, nowMs, id, split, amounts).0, BucketKey(p.res[id].key), t) <==>
               t < nowMs + p.cfg.leaseTtlMs) &&
              (Live(RefundLocal(p, nowMs, id).0, BucketKey(p.res[id].key), t) <==> t < nowMs + p.cfg.leaseTtlMs)
  {
    hide Shown, Each, DeltaOn, Masked, Covers;
  }

  /** An allowed Borrow means the request is admitted, and the fallback refusal is out of reach, exactly when
      less than a lease lifetime passes between crediting and debiting. */
  lemma AllowedBorrowAdmits(p: Pool, b: Books, env: L.Env, failOpen: bool, key: Key, limits: Amounts, cost: Amounts,
                            id: string)
    requires Sound(p) && cost.NonNegative() && env.fault.NoFault?
    requires var reply := Borrow(b, env.storeMs, key, limits, BorrowSpec(cost, p.cfg.chunk)).1;
             reply.Ok? && reply.value.allowed
    ensures var (q, _, d) := L.CheckByBorrowing(p, b, env, failOpen, key, limits, cost, id);
            (d.allowed <==> env.clock(4) < env.clock(3) + p.cfg.leaseTtlMs) &&
            (d.allowed ==>
               d.reservationId == id && id in q.res && q.res[id].status == Pending && q.res[id].reserved == cost) &&
            (!d.allowed ==> d.limitType == Backend)
  {
    hide Borrow, TryDebit, CreditLease, Sound;
    GrantCovers(b, env.storeMs, key, limits, BorrowSpec(cost, p.cfg.chunk));
    var got := Borrow(b, env.storeMs, key, limits, BorrowSpec(cost, p.cfg.chunk)).1.value.got;
    CreditThenDebit(p, env.clock(3), env.clock(4), key, limits, got, cost, id);
  }

  /** Every balance of the mode is at most the chunk. */
  predicate WithinChunk(balance: Amounts, chunk: Amounts, split: bool) {
    forall a | Metered(split, a) :: balance.At(a) <= chunk.At(a)
  }

  /** A lease within a chunk on every axis is within it again after an admission by borrowing exactly when on every
      axis it held no more than the cost, or the store had no more than what was missing to a chunk and the cost.
      So a request that is short on every axis never overfills it; one that is short on one axis may, on others. */
  lemma ChunkBoundIff(p: Pool, b: Books, env: L.Env, failOpen: bool, key: Key, limits: Amounts, cost: Amounts,
                      id: string)
    requires Sound(p) && cost.NonNegative() && env.fault.NoFault? && env.clock(4) < env.clock(3) + p.cfg.leaseTtlMs
    requires var reply := Borrow(b, env.storeMs, key, limits, BorrowSpec(cost, p.cfg.chunk)).1;
             reply.Ok? && reply.value.allowed
    requires p.cfg.chunk.NonNegative() && WithinChunk(HeldBefore(p, env, key), p.cfg.chunk, Split(limits))
    ensures var q := L.CheckByBorrowing(p, b, env, failOpen, key, limits, cost, id).0;
            var k, split, had := BucketKey(key), Split(limits), HeldBefore(p, env, key);
            k in q.leases &&
            (WithinChunk(q.leases[k].balance, p.cfg.chunk, split) <==>
             forall a | Metered(split, a) ::
               had.At(a) <= cost.At(a) ||
                 Avail(b, a, k, limits, env.storeMs) <= p.cfg.chunk.At(a) - had.At(a) + cost.At(a))
  {
    hide Borrow, TryDebit, CreditLease, Sound, TryConsume, LoadBucket, Whole;
    var spec := BorrowSpec(cost, p.cfg.chunk);
    var k, split, had := BucketKey(key), Split(limits), HeldBefore(p, env, key);
    GrantCovers(b, env.storeMs, key, limits, spec);
    var got := Borrow(b, env.storeMs, key, limits, spec).1.value.got;
    CreditThenDebit(p, env.clock(3), env.clock(4), key, limits, got, cost, id);
    forall a | Metered(split, a)
      ensures Minus(had.Plus(got), Masked(split, cost)).At(a) == had.At(a) + got.At(a) - cost.At(a)
      ensures var avail := Avail(b, a, k, limits, env.storeMs);
              got.At(a) == WantGot(avail, cost.At(a), p.cfg.chunk.At(a)) && avail >= cost.At(a)
      ensures had.At(a) <= p.cfg.chunk.At(a)
    {
      BorrowWrites(b, env.storeMs, key, limits, spec, Slot(a, k));
      ByAxisNonNegative(cost, a);
      ByAxisNonNegative(p.cfg.chunk, a);
    }
  }

  /** What the live lease holds when the grant comes in. */
  function HeldBefore(p: Pool, env: L.Env, key: Key): Amounts {
    if Live(p, BucketKey(key), env.clock(3)) then p.leases[BucketKey(key)].balance else ZERO
  }

  // ----- the deny cache

  lemma RefusedBorrowWaits(b: Books, nowMs: int, key: Key, limits: Amounts, spec: BorrowSpec)
    requires 0 < nowMs && WrittenBy(b, nowMs)
    requires var reply := Borrow(b, nowMs, key, limits, spec).1; reply.Ok? && !reply.value.allowed
    ensures Borrow(b, nowMs, key, limits, spec).1.value.retryMs >= 1000
  {
    hide Borrow, LoadBucket, Refill;
    RefusedBorrow(b, nowMs, key, limits, spec);
    var bad := Borrow(b, nowMs, key, limits, spec).1.value.limitType.axis;
    var s := b.Load(bad, BucketKey(key), limits, nowMs);
    LoadIsFresh(b, bad, BucketKey(key), limits, nowMs, nowMs);
    if s.capacity > 0 {
      RefusedWait(s, nowMs, Clamp(spec.min.At(bad)));
    }
  }

  /** The deny cache agrees with the store to within one second.  A refused Borrow is remembered for exactly
      its wait.  Whatever calls follow, as long as they do not credit the named bucket on balance, a request
      for at least the refused amount on that axis, made while the entry is there and no later than a second
      (and the delay between the store's answer and the note) before it ends, is refused by the cache and
      would have been refused by the store. */
  lemma CacheAgreesWithStore(p: Pool, b: Books, t1: int, notedMs: int, key: Key, limits: Amounts, spec: BorrowSpec,
                             run: seq<Timed>, later: Pool, t2: int, limits2: Amounts, spec2: BorrowSpec)
    requires 0 < t1 <= notedMs && WrittenBy(b, t1)
    requires var reply := Borrow(b, t1, key, limits, spec).1;
             reply.Ok? && !reply.value.allowed &&
             var noted := DenySet(p, notedMs, key, reply.value.limitType, reply.value.retryMs);
             var k := BucketKey(key);
             k in later.deny && later.deny[k] == noted.deny[k] && t2 <= noted.deny[k].untilMs - 1000 - (notedMs - t1)
    requires var bad := Borrow(b, t1, key, limits, spec).1.value.limitType.axis;
             var slot, m := Slot(bad, BucketKey(key)), limits.At(bad);
             m >= 0 && (CellAt(b, slot).Some? ==> CellAt(b, slot).value.tokens >= 0) &&
             SnapshotsWithin(MonotoneClock, b.res, slot, m) && Admissible(MonotoneClock, t1, run, slot, m) &&
             ClockAfter(t1, run) <= t2 && NetFlow(b, run, slot) >= 0 &&
             Metered(Split(limits2), bad) && limits2.At(bad) <= m && Clamp(spec2.min.At(bad)) >= Clamp(spec.min.At(bad))
    ensures var refused := Borrow(b, t1, key, limits, spec).1.value;
            var again := Borrow(RunBooks(b, run), t2, key, limits2, spec2).1;
            DenyGet(later, t2, key) == (later, Some((refused.limitType, notedMs + refused.retryMs - t2))) &&
            (again.Ok? ==> !again.value.allowed)
  {
    hide Borrow, NetFlow, RunBooks, Admissible, SnapshotsWithin, WrittenBy;
    RefusedBorrowWaits(b, t1, key, limits, spec);
    RefusalCanBeRemembered(b, t1, key, limits, spec, run, t2, limits2, spec2);
  }

  /** Giving credits back forgets the refusal of their key: a refund always does, a settlement exactly when it
      gives back tokens on some axis; refusals of other keys stay. */
  lemma RestoringForgetsRefusals(p: Pool, nowMs: int, id: string, split: bool, actual: Amounts, other: string)
    requires ActsOn(p, nowMs, id, split)
    ensures var k := BucketKey(p.res[id].key);
            var refunded, settled := RefundLocal(p, nowMs, id).0.deny, SettleLocal(p, nowMs, id, split, actual).0.deny;
            k !in refunded &&
            (k in settled <==> k in p.deny && forall a | a in TokenAxes(split) ::
             p.res[id].reserved.At(a) <= Clamp(actual.At(a))) &&
            (other != k ==> EntryOf(refunded, other) == EntryOf(settled, other) == EntryOf(p.deny, other))
  {
    hide Shown, Each, WorkingLease;
    var r := p.res[id];
    var had := WorkingLease(Swept(PurgedPool(p, nowMs), BucketKey(r.key), nowMs), r, nowMs).balance;
    var spent := Masked(split, actual.Clamped()).(rpm := 0);
    forall a: Axis
      ensures DeltaOn(r, had, spent, a).2 <==> a in TokenAxes(split) && r.reserved.At(a) > Clamp(actual.At(a))
    {
    }
  }

  function EntryOf(deny: map<string, DenyEntry>, k: string): Option<DenyEntry> {
    if k in deny then Some(deny[k]) else None
  }

  // ----- replays

  /** A grant shows in its bucket. */
  lemma GrantChangesBucket(b: Books, nowMs: int, key: Key, limits: Amounts, spec: BorrowSpec, a: Axis)
    requires 0 < nowMs && Metered(Split(limits), a) && spec.min.At(a) > 0
    requires var reply := Borrow(b, nowMs, key, limits, spec).1; reply.Ok? && reply.value.allowed
    ensures Borrow(b, nowMs, key, limits, spec).0 != b
  {
    hide Borrow, CellIn;
    var slot := Slot(a, BucketKey(key));
    BorrowWrites(b, nowMs, key, limits, spec, slot);
    assert CellAt(Borrow(b, nowMs, key, limits, spec).0, slot) != CellAt(b, slot) by {
      CellIsSpent(b.Shelf(a), slot.key, limits.At(a), nowMs, spec.min.At(a), Clamp(spec.chunk.At(a)));
    }
  }

  lemma CellIsSpent(shelf: map<string, Cell>, k: string, capacity: int, nowMs: int, min: nat, chunk: nat)
    requires 0 < nowMs && 0 < min <= Whole(LoadBucket(shelf, k, capacity, nowMs).tokens)
    ensures var s := LoadBucket(shelf, k, capacity, nowMs);
            CellIn(shelf, k) != Some(ToCell(TryConsume(s, nowMs, WantGot(Whole(s.tokens), min, chunk)).0))
  {
  }

  predicate IsSettled(p: Pool, env: L.Env, id: string, split: bool) {
    var live := Unexpired(Unexpired(p.res, env.clock(0)), env.clock(1));
    id in live && live[id].status == Settled && live[id].split == split
  }

  /** Settling again on the fast path leaves the store alone, and in the pool only forgets what has expired,
      exactly when no overshoot is on record or the Borrow for it does not go through. */
  lemma ReplayIsNoOpIff(p: Pool, b: Books, env: L.Env, id: string, split: bool, actual: Amounts)
    requires Sound(p) && 0 < env.storeMs && IsSettled(p, env, id, split)
    ensures var rec := p.res[id];
            var (q, b', reply) := L.SettleFast(p, b, env, id, split, actual);
            var need := DeficitOf(split, rec.last.overshoot);
            var br := Borrow(b, env.storeMs, rec.key, rec.limits, BorrowSpec(need, need)).1;
            (b' == b <==> rec.last.overshoot == ZERO || env.fault.NotSent? || br.Err? || !br.value.allowed) &&
            (rec.last.overshoot == ZERO ==>
               reply == Ok(rec.last) &&
               q == PurgedPool(PurgedPool(p, env.clock(0)), env.clock(1)))
  {
    hide Borrow, CreditLease, ApplyDeficit;
    var rec := p.res[id];
    var need := DeficitOf(split, rec.last.overshoot);
    var br := Borrow(b, env.storeMs, rec.key, rec.limits, BorrowSpec(need, need)).1;
    assert SoundReservation(rec);
    ReplaySettles(p, env, id, split, actual);
    DeficitIsOvershoot(rec);
    if br.Err? || !br.value.allowed {
      RefusedChangesNothing(b, env.storeMs, rec.key, rec.limits, BorrowSpec(need, need));
    } else if HasDeficit(need) {
      var a := if need.tpm > 0 then Tpm else if need.itpm > 0 then Itpm else Otpm;
      GrantChangesBucket(b, env.storeMs, rec.key, rec.limits, BorrowSpec(need, need), a);
    }
  }

  lemma ReplaySettles(p: Pool, env: L.Env, id: string, split: bool, actual: Amounts)
    requires IsSettled(p, env, id, split)
    ensures GetReservation(p, env.clock(0), id) == (PurgedPool(p, env.clock(0)), Some(p.res[id]))
    ensures var q := PurgedPool(p, env.clock(0));
            SettleLocal(q, env.clock(1), id, split, actual) == (PurgedPool(q, env.clock(1)), Ok(p.res[id].last))
  {
    hide LocalDelta, Shown, Masked, Each, WorkingLease, DeltaOn;
  }

  lemma DeficitIsOvershoot(r: Reservation)
    requires SoundReservation(r)
    ensures HasDeficit(DeficitOf(r.split, r.last.overshoot)) <==> r.last.overshoot != ZERO
  {
  }

  lemma RefusedChangesNothing(b: Books, nowMs: int, key: Key, limits: Amounts, spec: BorrowSpec)
    requires var reply := Borrow(b, nowMs, key, limits, spec).1; reply.Err? || !reply.value.allowed
    ensures Borrow(b, nowMs, key, limits, spec).0 == b
  {
    hide TryConsume, LoadBucket, Saved, Shown, Whole, GotEach;
  }

  // ----- grants are really taken

  /** The clock reads earlier than the stored bucket, which holds more whole tokens than its limit now is. */
  predicate SteppedBackOver(shelf: map<string, Cell>, k: string, limit: int, nowMs: int) {
    k in shelf && shelf[k].lastMs != 0 && nowMs < shelf[k].lastMs && Whole(shelf[k].tokens) > limit > 0
  }

  /** The debit whose verdict Borrow does not look at is refused exactly when the limit is negative, or when more
      than the limit is asked for, as minimum or as chunk, across a backward clock step over a bucket that holds
      more than the limit. */
  lemma VerdictIff(b: Books, nowMs: int, key: Key, limits: Amounts, spec: BorrowSpec, a: Axis)
    requires 0 < nowMs && Metered(Split(limits), a)
    requires var reply := Borrow(b, nowMs, key, limits, spec).1; reply.Ok? && reply.value.allowed
    ensures var k := BucketKey(key);
            var got := Borrow(b, nowMs, key, limits, spec).1.value.got.At(a);
            var asked := Max(Clamp(spec.min.At(a)), Clamp(spec.chunk.At(a)));
            (!TryConsume(b.Load(a, k, limits, nowMs), nowMs, got).1.allowed <==>
             limits.At(a) < 0 || (asked > limits.At(a) && SteppedBackOver(b.Shelf(a), k, limits.At(a), nowMs))) &&
            (SteppedBackOver(b.Shelf(a), k, limits.At(a), nowMs) ==> !Calm(b.Shelf(a), k, limits.At(a), nowMs))
  {
    hide Borrow, CellIn;
    BorrowWrites(b, nowMs, key, limits, spec, Slot(a, BucketKey(key)));
    LoadedEnough(b.Shelf(a), BucketKey(key), limits.At(a), nowMs, Clamp(spec.min.At(a)), Clamp(spec.chunk.At(a)));
  }

  lemma LoadedEnough(shelf: map<string, Cell>, k: string, capacity: int, nowMs: int, min: nat, chunk: nat)
    requires 0 < nowMs && Whole(LoadBucket(shelf, k, capacity, nowMs).tokens) >= min
    ensures var s := LoadBucket(shelf, k, capacity, nowMs);
            !TryConsume(s, nowMs, WantGot(Whole(s.tokens), min, chunk)).1.allowed <==>
            capacity < 0 || (Max(min, chunk) > capacity && SteppedBackOver(shelf, k, capacity, nowMs))
  {
    var s := LoadBucket(shelf, k, capacity, nowMs);
    if capacity >= 0 {
      assert Whole(s.tokens) > capacity <==> SteppedBackOver(shelf, k, capacity, nowMs);
    }
  }

  /** Grants are really taken: when no bucket is read across a backward clock step with more in it than its
      capacity, an allowed Borrow removes exactly what it grants on every axis of the mode, between the
      minimum and the larger of minimum and chunk; a refused one removes nothing. */
  lemma GrantsAreTaken(b: Books, nowMs: int, key: Key, limits: Amounts, spec: BorrowSpec, a: Axis)
    requires 0 < nowMs && Metered(Split(limits), a)
    requires Calm(b.Shelf(a), BucketKey(key), limits.At(a), nowMs)
    requires Borrow(b, nowMs, key, limits, spec).1.Ok?
    ensures var (b', reply) := Borrow(b, nowMs, key, limits, spec);
            var slot := Slot(a, BucketKey(key));
            var s := b.Load(a, slot.key, limits, nowMs);
            var min, chunk, got := Clamp(spec.min.At(a)), Clamp(spec.chunk.At(a)), reply.value.got.At(a);
            if reply.value.allowed then
              min <= got <= Max(min, chunk) && CellAt(b', slot) == Some(Cell(s.tokens - got * UNIT, nowMs))
            else b' == b && got == 0
  {
    hide Borrow, CellIn, LoadBucket, Calm, TryConsume;
    var slot := Slot(a, BucketKey(key));
    BorrowWrites(b, nowMs, key, limits, spec, slot);
    var reply := Borrow(b, nowMs, key, limits, spec).1;
    if reply.value.allowed {
      LoadWithinPotential(b.Shelf(a), slot.key, limits.At(a), nowMs, Max(0, limits.At(a)));
      GrantIsTaken(b.Load(a, slot.key, limits, nowMs), nowMs, Clamp(spec.min.At(a)), Clamp(spec.chunk.At(a)));
    } else {
      RefusedChangesNothing(b, nowMs, key, limits, spec);
    }
  }

  // ----- closing

  /** For a subject without NUL, cutting its map key gives the subject and the model back, "-" for "". */
  lemma SplitKeyInverts(key: Key)
    requires '\0' !in key.subject
    ensures SplitKey(BucketKey(key)) == Key(key.subject, if key.model == "" then "-" else key.model)
  {
    var k := BucketKey(key);
    assert k[|key.subject|] == '\0';
    assert forall j | 0 <= j < |key.subject| :: k[j] == key.subject[j];
    FirstNulFinds(k, 0, |key.subject|);
    assert k[..|key.subject|] == key.subject;
  }

  /** A return to the store is refused exactly when the subject is empty up to its first NUL. */
  lemma ReturnErrsIff(key: Key)
    ensures SplitKey(BucketKey(key)).subject == "" <==> key.subject == "" || key.subject[0] == '\0'
  {
    var k := BucketKey(key);
    var i := FirstNul(k, 0);
    assert k[|key.subject|] == '\0';
    assert i <= |key.subject|;
  }

  /** Whether the return of an entry takes effect. */
  predicate Returned(rs: L.Returns, k: string) {
    SplitKey(k).subject != "" && !rs.fault(k).NotSent?
  }

  /** Closing drains to the right place: in whatever order the entries are returned, each lands in the bucket
      it was borrowed from, once, capped at the limit, and no other bucket changes. */
  lemma {:induction false} ClosedBuckets(b: Books, rs: L.Returns, out: map<string, Lease>, order: seq<string>,
                                         slot: Slot)
    requires forall k | k in order :: k in out && WellKeyed(k)
    requires forall i, j | 0 <= i < j < |order| :: order[i] != order[j]
    ensures var b' := L.ReturnEach(b, rs, out, order).0;
            var k := slot.key;
            b'.res == b.res &&
            CellAt(b', slot) ==
              if k in order && Returned(rs, k) && HasCredit(out[k]) && Metered(Split(out[k].limits), slot.axis)
              then Some(ToCell(Credit(b.Load(slot.axis, k, out[k].limits, rs.atMs(k)), rs.atMs(k),
                                      out[k].balance.At(slot.axis))))
              else CellAt(b, slot)
    decreases |order|
  {
    hide L.ReturnOne, Credit, LoadBucket, CellIn, Returned, HasCredit, WellKeyed, Metered;
    if order != [] {
      var n := |order| - 1;
      var k := order[n];
      ClosedBuckets(b, rs, out, order[..n], slot);
      var b1 := L.ReturnEach(b, rs, out, order[..n]).0;
      OneClosed(b1, rs, k, out[k], slot);
      assert order == order[..n] + [k];
      assert k !in order[..n];
      if slot.key == k {
        SameLoad(b, b1, slot, out[k].limits, rs.atMs(k));
      }
    }
  }

  lemma OneClosed(b: Books, rs: L.Returns, k: string, lease: Lease, slot: Slot)
    requires WellKeyed(k)
    ensures var b' := L.ReturnOne(b, rs, k, lease).0;
            b'.res == b.res &&
            CellAt(b', slot) ==
              if slot.key == k && Returned(rs, k) && HasCredit(lease) && Metered(Split(lease.limits), slot.axis)
              then Some(ToCell(Credit(b.Load(slot.axis, k, lease.limits, rs.atMs(k)), rs.atMs(k),
                                      lease.balance.At(slot.axis))))
              else CellAt(b, slot)
  {
    hide Return, Credit, LoadBucket, SplitKey, CellIn;
    ReturnWrites(b, rs.atMs(k), SplitKey(k), lease.limits, lease.balance, slot);
    ReturnKeepsReservations(b, rs.atMs(k), SplitKey(k), lease.limits, lease.balance);
  }

  predicate HasCredit(lease: Lease) {
    lease.balance.rpm > 0 || lease.balance.tpm > 0 || lease.balance.itpm > 0 || lease.balance.otpm > 0
  }

  lemma ReturnKeepsReservations(b: Books, nowMs: int, key: Key, limits: Amounts, add: Amounts)
    ensures Return(b, nowMs, key, limits, add).0.res == b.res
  {
    hide Credit, LoadBucket;
  }

  /** The store gains no more on a bucket than the closed lease held. */
  lemma ClosingGains(b: Books, rs: L.Returns, out: map<string, Lease>, order: seq<string>, slot: Slot)
    requires (forall k | k in order :: k in out && WellKeyed(k)) &&
             forall i, j | 0 <= i < j < |order| :: order[i] != order[j]
    requires slot.key in out && out[slot.key].balance.NonNegative() && 0 < rs.atMs(slot.key)
    requires Calm(b.Shelf(slot.axis), slot.key, out[slot.key].limits.At(slot.axis), rs.atMs(slot.key))
    ensures var b' := L.ReturnEach(b, rs, out, order).0;
            var limits, t := out[slot.key].limits, rs.atMs(slot.key);
            Max(0, b'.Load(slot.axis, slot.key, limits, t).tokens) <=
            Max(0, b.Load(slot.axis, slot.key, limits, t).tokens) + out[slot.key].balance.At(slot.axis) * UNIT
  {
    hide L.ReturnEach, Credit, LoadBucket, CellIn, WellKeyed, Calm;
    var b' := L.ReturnEach(b, rs, out, order).0;
    var lease, t := out[slot.key], rs.atMs(slot.key);
    var s := b.Load(slot.axis, slot.key, lease.limits, t);
    var m := Max(0, lease.limits.At(slot.axis));
    ByAxisNonNegative(lease.balance, slot.axis);
    ClosedBuckets(b, rs, out, order, slot);
    LoadWithinPotential(b.Shelf(slot.axis), slot.key, lease.limits.At(slot.axis), t, m);
    CreditMoves(s, t, lease.balance.At(slot.axis));
    if CellAt(b', slot) == CellAt(b, slot) {
      SameLoad(b, b', slot, lease.limits, t);
    } else {
      var c := Credit(s, t, lease.balance.At(slot.axis));
      CreditIsSettled(s, t, lease.balance.At(slot.axis));
      LoadStored(b', slot, c, lease.limits, t);
    }
  }

  lemma CreditIsSettled(s: State, nowMs: int, amount: nat)
    requires Fresh(s, nowMs)
    ensures var c := Credit(s, nowMs, amount);
            c.capacity == s.capacity && c.lastMs == nowMs && Max(0, Refill(c, nowMs).tokens) <= Max(0, c.tokens)
  {
  }

  /** Closing empties every live lease, and hands out exactly the live leases that held something. */
  lemma ClosedIsEmpty(p: Pool, nowMs: int, k: string)
    requires Sound(p)
    ensures var (q, out) := Snapshot(p, nowMs);
            (Live(p, k, nowMs) ==> Live(q, k, nowMs) && q.leases[k].balance == ZERO) &&
            (k in out <==> Live(p, k, nowMs) && p.leases[k].balance != ZERO) &&
            (k in out ==> out[k] == p.leases[k])
  {
  }

  lemma EmptyOrderIff(order: seq<string>, out: map<string, Lease>)
    requires L.Visits(order, out)
    ensures order != [] <==> out != map[]
  {
    if order != [] {
      assert order[0] in order;
    }
  }

  /** Closing again straight away hands out nothing and changes nothing. */
  lemma SecondCloseDoesNothing(p: Pool, t1: int, t2: int, b: Books, rs: L.Returns, order: seq<string>)
    requires t1 <= t2
    ensures var q := Snapshot(p, t1).0;
            Snapshot(q, t2) == (q, map[]) &&
            (L.Visits(order, Snapshot(q, t2).1) ==> L.ReturnEach(b, rs, Snapshot(q, t2).1, order) == (b, Ok(())))
  {
    var q := Snapshot(p, t1).0;
    assert forall k | k in q.leases :: !Returnable(q.leases[k], t2);
    assert Snapshot(q, t2).0.leases == q.leases;
    assert Snapshot(q, t2).1 == map[];
    if L.Visits(order, Snapshot(q, t2).1) {
      EmptyOrderIff(order, Snapshot(q, t2).1);
    }
  }

  /** Close reports an error exactly when some return did not get its answer or had no subject. */
  lemma {:induction false} CloseErrsIff(b: Books, rs: L.Returns, out: map<string, Lease>, order: seq<string>)
    requires forall k | k in order :: k in out
    ensures L.ReturnEach(b, rs, out, order).1.Err? <==>
            exists k | k in order :: SplitKey(k).subject == "" || !rs.fault(k).NoFault?
    decreases |order|
  {
    hide SplitKey, Saved, CreditOn;
    if order != [] {
      var n := |order| - 1;
      CloseErrsIff(b, rs, out, order[..n]);
      assert order == order[..n] + [order[n]];
    }
  }

  /** Whether returning this lease fails: the call is lost, or the subject is empty. */
  predicate Fails(rs: L.Returns, k: string) {
    SplitKey(k).subject == "" || !rs.fault(k).NoFault?
  }

  /** The error that Close reports is that of the first return that failed. */
  lemma {:induction false} CloseReportsFirst(b: Books, rs: L.Returns, out: map<string, Lease>,
                                             order: seq<string>) returns (i: nat)
    requires forall k | k in order :: k in out
    requires L.ReturnEach(b, rs, out, order).1.Err?
    ensures i < |order| && Fails(rs, order[i]) && forall j | 0 <= j < i :: !Fails(rs, order[j])
    ensures L.ReturnEach(b, rs, out, order).1 ==
            Err(if rs.fault(order[i]).NoFault? then InvalidArgument else Unavailable)
    decreases |order|
  {
    hide SplitKey, Saved, CreditOn;
    var n := |order| - 1;
    if L.ReturnEach(b, rs, out, order[..n]).1.Err? {
      i := CloseReportsFirst(b, rs, out, order[..n]);
    } else {
      CloseErrsIff(b, rs, out, order[..n]);
      i := n;
    }
  }
}
