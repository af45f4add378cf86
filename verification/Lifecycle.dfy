/** The life of a reservation: pending, then settled or refunded at most once, at the store and in a pool. */
module Lifecycle {
  import opened Quota
  import opened Bucket
  import opened StoreSpec
  import opened StoreLedger
  import opened StoreRuns
  import opened PoolSpec
  import opened PoolLedger
  import opened Fleet

  // ----- at the store

  predicate PendingIn(res: map<string, Reservation>, id: string) {
    id in res && res[id].status == Pending
  }

  /** The call settles or refunds the reservation. */
  predicate Finishes(b: Books, e: Timed, id: string) {
    IsPending(b, e.nowMs, id) &&
    match e.call
    case SettleCall(settled, split, _) => settled == id && b.res[id].split == split
    case RefundCall(refunded) => refunded == id
    case _ => false
  }

  /** The call writes a new reservation under the id. */
  predicate Creates(b: Books, e: Timed, id: string) {
    e.call.CheckCall? && e.call.id == id &&
    var reply := Check(b, e.nowMs, e.call.key, e.call.limits, e.call.cost, id).1;
    reply.Ok? && reply.value.allowed
  }

  lemma CheckKeepsOthers(b: Books, nowMs: int, key: Key, limits: Amounts, cost: Amounts, newId: string, id: string)
    requires !Creates(b, Timed(nowMs, CheckCall(key, limits, cost, newId)), id)
    ensures var res := Check(b, nowMs, key, limits, cost, newId).0.res;
            id in res ==> id in b.res && res[id] == b.res[id]
  {
    hide Check, Masked;
    CheckRecords(b, nowMs, key, limits, cost, newId);
  }

  lemma SettleKeepsOthers(b: Books, nowMs: int, settled: string, split: bool, actual: Amounts, id: string)
    ensures var res := Settle(b, nowMs, settled, split, actual).0.res;
            if Finishes(b, Timed(nowMs, SettleCall(settled, split, actual)), id)
              then id in res && res[id].status == Settled
            else id in res ==> id in b.res && res[id] == b.res[id]
  {
    hide Settle, Masked;
    SettleRecords(b, nowMs, settled, split, actual);
  }

  lemma RefundKeepsOthers(b: Books, nowMs: int, refunded: string, id: string)
    ensures var res := Refund(b, nowMs, refunded).0.res;
            if Finishes(b, Timed(nowMs, RefundCall(refunded)), id) then id in res && res[id].status == Refunded
            else id in res ==> id in b.res && res[id] == b.res[id]
  {
    hide Refund;
    RefundRecords(b, nowMs, refunded);
  }

  /** A call that neither finishes a reservation nor reuses its id leaves the record as it is, or purges it. */
  lemma OthersLeaveItAlone(b: Books, e: Timed, id: string)
    requires !Creates(b, e, id)
    ensures var res := Exec(b, e.nowMs, e.call).res;
            if Finishes(b, e, id) then id in res && res[id].status != Pending
            else id in res ==> id in b.res && res[id] == b.res[id]
  {
    hide Check, Settle, Refund, Borrow, Return;
    match e.call {
      case CheckCall(key, limits, cost, newId) => CheckKeepsOthers(b, e.nowMs, key, limits, cost, newId, id);
      case SettleCall(settled, split, actual) => SettleKeepsOthers(b, e.nowMs, settled, split, actual, id);
      case RefundCall(refunded) => RefundKeepsOthers(b, e.nowMs, refunded, id);
      case BorrowCall(key, limits, spec) => LeaseCallsKeep(b, e.nowMs, key, limits, spec, ZERO);
      case ReturnCall(key, limits, add) => LeaseCallsKeep(b, e.nowMs, key, limits, BorrowSpec(ZERO, ZERO), add);
    }
  }

  lemma LeaseCallsKeep(b: Books, nowMs: int, key: Key, limits: Amounts, spec: BorrowSpec, add: Amounts)
    ensures Borrow(b, nowMs, key, limits, spec).0.res == b.res && Return(b, nowMs, key, limits, add).0.res == b.res
  {
    hide TryConsume, Credit, LoadBucket, Shown, Masked, Each, FirstFailing, GotEach, ConsumeOn, CreditOn;
  }

  predicate NeverCreated(b: Books, run: seq<Timed>, id: string)
    decreases |run|
  {
    run == [] || (!Creates(b, run[0], id) && NeverCreated(Exec(b, run[0].nowMs, run[0].call), run[1..], id))
  }

  /** How often a run settles or refunds the reservation. */
  function TimesFinished(b: Books, run: seq<Timed>, id: string): nat
    decreases |run|
  {
    if run == [] then 0
    else (if Finishes(b, run[0], id) then 1 else 0) + TimesFinished(Exec(b, run[0].nowMs, run[0].call), run[1..], id)
  }

  /** Exactly once, at the store: over any run that does not reuse the id, whatever the clock does, a pending
      reservation is settled or refunded at most once, and one that is not pending never again. */
  lemma {:induction false} FinishedAtMostOnce(b: Books, run: seq<Timed>, id: string)
    requires NeverCreated(b, run, id)
    ensures TimesFinished(b, run, id) <= if PendingIn(b.res, id) then 1 else 0
    decreases |run|
  {
    hide Exec, Creates;
    if run != [] {
      OthersLeaveItAlone(b, run[0], id);
      FinishedAtMostOnce(Exec(b, run[0].nowMs, run[0].call), run[1..], id);
      assert Finishes(b, run[0], id) ==> PendingIn(b.res, id);
    }
  }

  /** A settlement or refund moves tokens only when it is the one that finishes the reservation. */
  lemma OnlyFinishingMoves(b: Books, e: Timed, slot: Slot)
    requires e.call.SettleCall? || e.call.RefundCall?
    requires !Finishes(b, e, e.call.id)
    ensures CellAt(Exec(b, e.nowMs, e.call), slot) == CellAt(b, slot) && Flow(b, e.nowMs, e.call, slot) == 0
  {
    hide Settle, Refund, CellIn, SettleAxis, Credit, LoadBucket;
    if e.call.SettleCall? {
      SettleWrites(b, e.nowMs, e.call.id, e.call.split, e.call.actual, slot);
    } else {
      RefundWrites(b, e.nowMs, e.call.id, slot);
    }
  }

  /** A finished record survives every run that does not reuse its id, unchanged until it is purged. */
  lemma {:induction false} FinishedStays(b: Books, run: seq<Timed>, id: string)
    requires NeverCreated(b, run, id) && !PendingIn(b.res, id)
    ensures var res := RunBooks(b, run).res; id in res ==> id in b.res && res[id] == b.res[id]
    decreases |run|
  {
    hide Exec, Creates;
    if run != [] {
      OthersLeaveItAlone(b, run[0], id);
      FinishedStays(Exec(b, run[0].nowMs, run[0].call), run[1..], id);
    }
  }

  /** No call forgets a reservation before its time. */
  lemma UnexpiredStays(b: Books, e: Timed, id: string)
    requires id in b.res && e.nowMs <= b.res[id].expiresAt
    ensures id in Exec(b, e.nowMs, e.call).res
  {
    hide Check, Settle, Refund, Borrow, Return, Masked;
    match e.call {
      case CheckCall(key, limits, cost, newId) => CheckRecords(b, e.nowMs, key, limits, cost, newId);
      case SettleCall(settled, split, actual) => SettleRecords(b, e.nowMs, settled, split, actual);
      case RefundCall(refunded) => RefundRecords(b, e.nowMs, refunded);
      case BorrowCall(key, limits, spec) => LeaseCallsKeep(b, e.nowMs, key, limits, spec, ZERO);
      case ReturnCall(key, limits, add) => LeaseCallsKeep(b, e.nowMs, key, limits, BorrowSpec(ZERO, ZERO), add);
    }
  }

  lemma {:induction false} FinishedSurvives(b: Books, run: seq<Timed>, id: string)
    requires NeverCreated(b, run, id) && !PendingIn(b.res, id)
    requires id in b.res && forall e | e in run :: e.nowMs <= b.res[id].expiresAt
    ensures id in RunBooks(b, run).res
    decreases |run|
  {
    hide Exec, Creates;
    if run != [] {
      UnexpiredStays(b, run[0], id);
      OthersLeaveItAlone(b, run[0], id);
      FinishedSurvives(Exec(b, run[0].nowMs, run[0].call), run[1..], id);
    }
  }

  lemma ReplayReplies(b: Books, nowMs: int, id: string, split: bool, actual: Amounts)
    requires id in b.res ==> b.res[id].status == Settled && b.res[id].split == split
    ensures Settle(b, nowMs, id, split, actual) ==
            (Purged(b, nowMs), if id in Unexpired(b.res, nowMs) then Ok(b.res[id].last) else Err(ReservationNotFound))
  {
    hide SettleAxis, LoadBucket, Saved, Shown, Masked, Each, Whole;
  }

  /** Replays: after a settlement, however much later and with whatever argument, settling again returns the
      identical decision, for fifteen minutes at least, or finds the reservation expired; it only purges. */
  lemma SettleReplaysIdentically(b: Books, t1: int, id: string, actual1: Amounts, run: seq<Timed>, t2: int,
                                 actual2: Amounts)
    requires IsPending(b, t1, id)
    requires NeverCreated(Settle(b, t1, id, b.res[id].split, actual1).0, run, id)
    ensures var (b1, first) := Settle(b, t1, id, b.res[id].split, actual1);
            var b2 := RunBooks(b1, run);
            var (b3, second) := Settle(b2, t2, id, b.res[id].split, actual2);
            b3 == Purged(b2, t2) && (second == first || second == Err(ReservationNotFound)) &&
            (t2 <= t1 + RESERVATION_TTL && (forall e | e in run :: e.nowMs <= t1 + RESERVATION_TTL) ==> second == first)
  {
    hide Settle, NeverCreated, RunBooks;
    var split := b.res[id].split;
    var b1 := Settle(b, t1, id, split, actual1).0;
    SettleRecords(b, t1, id, split, actual1);
    FinishedStays(b1, run, id);
    if forall e | e in run :: e.nowMs <= t1 + RESERVATION_TTL {
      FinishedSurvives(b1, run, id);
    }
    ReplayReplies(RunBooks(b1, run), t2, id, split, actual2);
  }

  // ----- in a pool

  /** The step settles or refunds the pod's reservation. */
  predicate FinishesLocally(f: Fleet, e: Event, pod: nat, id: string) {
    e.Step? && e.thread in f.threads && IsUp(f, pod) &&
    var th := f.threads[e.thread];
    var p := f.pods[pod].pool;
    match th
    case Settling(home, settled, _, _, split, _) => home == pod && settled == id &&
      ActsOn(p, e.input.clockMs, id, split)
    case Refunding(home, refunded) => home == pod && refunded == id && id in p.res &&
      ActsOn(p, e.input.clockMs, id, p.res[id].split)
    case _ => false
  }

  /** The step writes a new reservation under the id. */
  predicate CreatesLocally(f: Fleet, e: Event, pod: nat, id: string) {
    e.Step? && e.thread in f.threads && IsUp(f, pod) &&
    var th := f.threads[e.thread];
    th.Debiting? && th.pod == pod && th.id == id &&
    TryDebit(f.pods[pod].pool, e.input.clockMs, th.key, th.limits, th.cost, id).1.Some?
  }

  predicate PendingAt(f: Fleet, pod: nat, id: string) {
    IsUp(f, pod) && PendingIn(f.pods[pod].pool.res, id)
  }

  /** What a pool step does to a record it does not create: finish it, purge it, amend its last decision, or nothing. */
  predicate KeepsRecord(before: map<string, Reservation>, after: map<string, Reservation>, id: string) {
    id in after ==> id in before && after[id] == before[id].(last := after[id].last)
  }

  lemma DebitKeeps(p: Pool, nowMs: int, key: Key, limits: Amounts, cost: Amounts, newId: string, id: string)
    requires newId == id ==> TryDebit(p, nowMs, key, limits, cost, id).1.None?
    ensures KeepsRecord(p.res, TryDebit(p, nowMs, key, limits, cost, newId).0.res, id)
  {
    hide Covers, Shown, Masked;
  }

  lemma SettleKeeps(p: Pool, nowMs: int, settled: string, split: bool, actual: Amounts, id: string)
    ensures var res := SettleLocal(p, nowMs, settled, split, actual).0.res;
            if settled == id && ActsOn(p, nowMs, id, split) then id in res && res[id].status == Settled
            else KeepsRecord(p.res, res, id)
  {
    hide LocalDelta, Shown, Masked, Each, WorkingLease, DeltaOn;
  }

  lemma RefundKeeps(p: Pool, nowMs: int, refunded: string, id: string)
    ensures var res := RefundLocal(p, nowMs, refunded).0.res;
            if refunded == id && id in p.res && ActsOn(p, nowMs, id, p.res[id].split)
            then id in res && res[id].status == Refunded
            else KeepsRecord(p.res, res, id)
  {
    hide Masked, WorkingLease;
  }

  /** A local settlement or refund that does not finish the reservation leaves every lease alone. */
  lemma OnlyFinishingMovesLocally(p: Pool, nowMs: int, id: string, split: bool, actual: Amounts)
    ensures !ActsOn(p, nowMs, id, split) ==> SettleLocal(p, nowMs, id, split, actual).0 == PurgedPool(p, nowMs)
    ensures !(id in p.res && ActsOn(p, nowMs, id, p.res[id].split)) ==>
            RefundLocal(p, nowMs, id).0 == PurgedPool(p, nowMs)
  {
    hide LocalDelta, Shown, Masked, Each, WorkingLease, DeltaOn;
  }

  lemma ApplyKeeps(p: Pool, nowMs: int, applied: string, split: bool, got: Amounts, id: string)
    ensures KeepsRecord(p.res, ApplyDeficit(p, nowMs, applied, split, got).res, id)
  {
    hide Absorb, Swept, Lapsed;
    SweptView(p, if applied in p.res then BucketKey(p.res[applied].key) else "", nowMs);
  }

  lemma PoolStepKeeps(th: Thread, pool: Pool, failOpen: bool, input: Input, id: string)
    requires Owner(th).Some? && !AtStore(th)
    requires !(th.Debiting? && th.id == id && TryDebit(pool, input.clockMs, th.key, th.limits, th.cost, id).1.Some?)
    ensures var res := PoolStep(th, pool, failOpen, input).1.res;
            if (th.Settling? && th.id == id && ActsOn(pool, input.clockMs, id, th.split)) ||
               (th.Refunding? && th.id == id && id in pool.res && ActsOn(pool, input.clockMs, id, pool.res[id].split))
            then id in res && res[id].status != Pending
            else KeepsRecord(pool.res, res, id)
  {
    hide TryDebit, SettleLocal, RefundLocal, ApplyDeficit, ActsOn;
    match th {
      case Debiting(_, key, limits, cost, newId, _) => DebitKeeps(pool, input.clockMs, key, limits, cost, newId, id);
      case Settling(_, settled, _, _, split, actual) => SettleKeeps(pool, input.clockMs, settled, split, actual, id);
      case Refunding(_, refunded) => RefundKeeps(pool, input.clockMs, refunded, id);
      case Applying(_, applied, got, split) => ApplyKeeps(pool, input.clockMs, applied, split, got, id);
      case _ => 
    }
  }

  /** One event of the fleet and one reservation of one pod. */
  lemma EventKeeps(f: Fleet, e: Event, pod: nat, id: string)
    requires !CreatesLocally(f, e, pod, id) && pod in f.pods
    ensures pod in Next(f, e).pods
    ensures if FinishesLocally(f, e, pod, id) then PendingAt(f, pod, id) && !PendingAt(Next(f, e), pod, id)
            else PendingAt(Next(f, e), pod, id) ==> PendingAt(f, pod, id)
  {
    hide PoolStep, StoreStep, TryDebit;
    if e.Step? && e.thread in f.threads {
      var th := f.threads[e.thread];
      if Owner(th).Some? && !AtStore(th) && IsUp(f, th.pod) && th.pod == pod {
        PoolStepKeeps(th, f.pods[pod].pool, f.pods[pod].failOpen, e.input, id);
      }
    }
  }

  predicate NeverCreatedLocally(f: Fleet, run: seq<Event>, pod: nat, id: string)
    decreases |run|
  {
    run == [] || (!CreatesLocally(f, run[0], pod, id) && NeverCreatedLocally(Next(f, run[0]), run[1..], pod, id))
  }

  function TimesFinishedLocally(f: Fleet, run: seq<Event>, pod: nat, id: string): nat
    decreases |run|
  {
    if run == [] then 0
    else
      var finished := if FinishesLocally(f, run[0], pod, id) then 1 else 0;
      finished + TimesFinishedLocally(Next(f, run[0]), run[1..], pod, id)
  }

  /** Exactly once, in a pool: in every interleaving that does not reuse the id, a pod's pending reservation
      is settled or refunded at most once, and one that is not pending never again. */
  lemma {:induction false} FinishedAtMostOnceLocally(f: Fleet, run: seq<Event>, pod: nat, id: string)
    requires pod in f.pods && NeverCreatedLocally(f, run, pod, id)
    ensures TimesFinishedLocally(f, run, pod, id) <= if PendingAt(f, pod, id) then 1 else 0
    decreases |run|
  {
    hide Next, CreatesLocally, FinishesLocally, PendingAt;
    if run != [] {
      EventKeeps(f, run[0], pod, id);
      FinishedAtMostOnceLocally(Next(f, run[0]), run[1..], pod, id);
    }
  }
}
