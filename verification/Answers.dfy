/** The answer of a fast-path check and the accounts of the fleet: a run that is one check admits to its bucket exactly
    what the caller is told. */
module Answers {
  import opened Quota
  import opened StoreSpec
  import opened StoreLedger
  import opened PoolSpec
  import opened PoolLedger
  import opened Fleet
  import opened FleetLedger
  import opened Solo
  import opened Replies
  import opened PoolReplies
  import opened LimiterReplies
  import L = LimiterSpec

  /** What the steps of a thread that runs alone admit to a bucket. */
  ghost function AloneAdmits(th: Thread, pool: Pool, failOpen: bool, books: Books, nowMs: int, inputs: nat -> Input,
                             i: nat, n: nat, slot: Slot): int
    decreases n - i
  {
    if i >= n then 0
    else if AtStore(th) then
      var (th', b) := StoreStep(th, books, nowMs, inputs(i));
      StoreCharge(th, books, nowMs, inputs(i), slot).admitted +
      AloneAdmits(th', pool, failOpen, b, nowMs, inputs, i + 1, n, slot)
    else if Owner(th).Some? then
      var (th', p) := PoolStep(th, pool, failOpen, inputs(i));
      PoolCharge(th, pool, inputs(i), slot).admitted +
      AloneAdmits(th', p, failOpen, books, nowMs, inputs, i + 1, n, slot)
    else 0
  }

  lemma {:induction false} TotalOfAlone(f: Fleet, t: nat, pod: nat, inputs: nat -> Input, i: nat, n: nat, slot: Slot)
    requires t in f.threads && Of(f.threads[t], pod) && IsUp(f, pod)
    ensures var home := f.pods[pod];
            Total(f, Steps(t, inputs, i, n), slot).admitted ==
            AloneAdmits(f.threads[t], home.pool, home.failOpen, f.store, f.nowMs, inputs, i, n, slot)
    decreases n - i
  {
    hide PoolStep, StoreStep, StoreCharge, PoolCharge;
    var home, th := f.pods[pod], f.threads[t];
    if i < n {
      StaysOnPod(th, home.pool, home.failOpen, f.store, f.nowMs, inputs(i), pod);
      var step := Step(t, inputs(i));
      TotalNext(f, step, Steps(t, inputs, i + 1, n), slot);
      TotalOfAlone(Next(f, step), t, pod, inputs, i + 1, n, slot);
      if !AtStore(th) && Owner(th).None? {
        RestsAdmitNothing(th, home.pool, home.failOpen, f.store, f.nowMs, inputs, i + 1, n, slot);
      }
    }
  }

  lemma TotalNext(f: Fleet, e: Event, rest: seq<Event>, slot: Slot)
    ensures Total(f, [e] + rest, slot).admitted == Charge(f, e, slot).admitted + Total(Next(f, e), rest, slot).admitted
  {
    hide Next, Charge;
    assert ([e] + rest)[1..] == rest;
  }

  lemma RestsAdmitNothing(th: Thread, pool: Pool, failOpen: bool, books: Books, nowMs: int, inputs: nat -> Input,
                          i: nat, n: nat, slot: Slot)
    requires !AtStore(th) && Owner(th).None?
    ensures AloneAdmits(th, pool, failOpen, books, nowMs, inputs, i, n, slot) == 0
  {
  }

  lemma PoolTurnAdmits(th: Thread, pool: Pool, failOpen: bool, books: Books, nowMs: int, inputs: nat -> Input, i: nat,
                       n: nat, slot: Slot)
    requires i < n && Owner(th).Some? && !AtStore(th)
    ensures var (th', p) := PoolStep(th, pool, failOpen, inputs(i));
            AloneAdmits(th, pool, failOpen, books, nowMs, inputs, i, n, slot) ==
            PoolCharge(th, pool, inputs(i), slot).admitted +
              AloneAdmits(th', p, failOpen, books, nowMs, inputs, i + 1, n, slot)
  {
    hide PoolStep, PoolCharge;
  }

  lemma StoreTurnAdmits(th: Thread, pool: Pool, failOpen: bool, books: Books, nowMs: int, inputs: nat -> Input, i: nat,
                        n: nat, slot: Slot)
    requires i < n && AtStore(th)
    ensures var (th', b) := StoreStep(th, books, nowMs, inputs(i));
            AloneAdmits(th, pool, failOpen, books, nowMs, inputs, i, n, slot) ==
            StoreCharge(th, books, nowMs, inputs(i), slot).admitted +
            AloneAdmits(th', pool, failOpen, b, nowMs, inputs, i + 1, n, slot)
  {
    hide StoreStep, StoreCharge;
  }

  /** What a request costs a bucket. */
  function Asked(key: Key, limits: Amounts, cost: Amounts, slot: Slot): int {
    if Touches(slot, key, Split(limits)) then cost.At(slot.axis) else 0
  }

  lemma DebitTurn(th: Thread, pool: Pool, failOpen: bool, books: Books, env: L.Env, i: nat, slot: Slot)
    requires th.Debiting? && i < 6
    ensures var (p, decision) := TryDebit(pool, env.clock(i), th.key, th.limits, th.cost, th.id);
            var next := PoolStep(th, pool, failOpen, InputsOf(env)(i)).0;
            (decision.Some? ==> decision.value.allowed && next == Idle) &&
            AloneAdmits(th, pool, failOpen, books, env.storeMs, InputsOf(env), i, 6, slot) ==
            (if decision.Some? then Asked(th.key, th.limits, th.cost, slot) else 0) +
            AloneAdmits(next, p, failOpen, books, env.storeMs, InputsOf(env), i + 1, 6, slot)
  {
    hide TryDebit, AloneAdmits, Shows, StaleBalance, ExpiredHolds, OverwrittenHold;
    PoolTurnAdmits(th, pool, failOpen, books, env.storeMs, InputsOf(env), i, 6, slot);
    DebitShows(pool, env.clock(i), th.key, th.limits, th.cost, th.id);
  }

  lemma IdleAdmitsNothing(pool: Pool, failOpen: bool, books: Books, env: L.Env, i: nat, slot: Slot)
    ensures AloneAdmits(Idle, pool, failOpen, books, env.storeMs, InputsOf(env), i, 6, slot) == 0
  {
  }

  lemma NotingAdmitsNothing(th: Thread, pool: Pool, failOpen: bool, books: Books, env: L.Env, i: nat, slot: Slot)
    requires th.Noting? && i < 6
    ensures AloneAdmits(th, pool, failOpen, books, env.storeMs, InputsOf(env), i, 6, slot) == 0
  {
    hide AloneAdmits, DenySet;
    PoolTurnAdmits(th, pool, failOpen, books, env.storeMs, InputsOf(env), i, 6, slot);
    IdleAdmitsNothing(DenySet(pool, env.clock(i), th.key, th.limitType, th.retryMs), failOpen, books, env, i + 1, slot);
  }

  lemma ErrorAdmitted(pod: nat, pool: Pool, failOpen: bool, books: Books, env: L.Env, i: nat, key: Key, limits: Amounts,
                      cost: Amounts, slot: Slot)
    requires i <= 3
    ensures var d := L.OnStoreErrorFast(pool, env, i, failOpen, key, limits, cost).1;
            AloneAdmits(AfterCheckError(pod, key, limits, cost, failOpen), pool, failOpen, books, env.storeMs,
                        InputsOf(env), i, 6, slot) ==
            if d.allowed then Asked(key, limits, cost, slot) else 0
  {
    hide TryDebit, Has, AloneAdmits, Asked, Shown;
    DenialIsRefusal(limits, Backend, 1000);
    var inputs := InputsOf(env);
    var p1 := Has(pool, env.clock(i), key, cost, limits).0;
    if failOpen {
      var th := Peeking(pod, key, limits, cost);
      PoolTurnAdmits(th, pool, failOpen, books, env.storeMs, inputs, i, 6, slot);
      var th1 := PoolStep(th, pool, failOpen, inputs(i)).0;
      if th1.Debiting? {
        DebitTurn(th1, p1, failOpen, books, env, i + 1, slot);
        IdleAdmitsNothing(TryDebit(p1, env.clock(i + 1), key, limits, cost, th1.id).0, failOpen, books, env, i + 2,
                          slot);
      }
    }
    IdleAdmitsNothing(p1, failOpen, books, env, i + 1, slot);
    IdleAdmitsNothing(pool, failOpen, books, env, i, slot);
  }

  lemma CreditingAdmitted(th: Thread, pool: Pool, failOpen: bool, books: Books, env: L.Env, slot: Slot)
    requires th.Crediting?
    ensures var p1 := CreditLease(pool, env.clock(3), th.key, th.limits, th.got);
            var decision := TryDebit(p1, env.clock(4), th.key, th.limits, th.cost, th.id).1;
            AloneAdmits(th, pool, failOpen, books, env.storeMs, InputsOf(env), 3, 6, slot) ==
            if decision.Some? then Asked(th.key, th.limits, th.cost, slot) else 0
  {
    hide DenySet, TryDebit, CreditLease, AloneAdmits, Asked;
    var inputs := InputsOf(env);
    var p1 := CreditLease(pool, env.clock(3), th.key, th.limits, th.got);
    var next := Debiting(th.pod, th.key, th.limits, th.cost, th.id, AfterBorrow);
    PoolTurnAdmits(th, pool, failOpen, books, env.storeMs, inputs, 3, 6, slot);
    DebitTurn(next, p1, failOpen, books, env, 4, slot);
    var (p2, decision) := TryDebit(p1, env.clock(4), th.key, th.limits, th.cost, th.id);
    IdleAdmitsNothing(p2, failOpen, books, env, 5, slot);
    NotingAdmitsNothing(Noting(th.pod, th.key, Backend, 1000), p2, failOpen, books, env, 5, slot);
  }

  lemma BorrowingAdmitted(pod: nat, pool: Pool, failOpen: bool, books: Books, env: L.Env, key: Key, limits: Amounts,
                          cost: Amounts, id: string, slot: Slot)
    ensures var th := Borrowing(pod, key, limits, cost, id, pool.cfg.chunk, failOpen);
            var d := L.CheckByBorrowing(pool, books, env, failOpen, key, limits, cost, id).2;
            AloneAdmits(th, pool, failOpen, books, env.storeMs, InputsOf(env), 2, 6, slot) ==
            if d.allowed then Asked(key, limits, cost, slot) else 0
  {
    hide Borrow, DenySet, TryDebit, CreditLease, L.OnStoreErrorFast, AloneAdmits, Asked, Shown, Flow;
    DenialIsRefusal(limits, Backend, 1000);
    var th := Borrowing(pod, key, limits, cost, id, pool.cfg.chunk, failOpen);
    var (b, reply) := Sent(env.fault, books, Borrow(books, env.storeMs, key, limits, BorrowSpec(cost, pool.cfg.chunk)));
    var th1 := AfterCall(th, books, env.storeMs, InputsOf(env)(2));
    StoreTurnAdmits(th, pool, failOpen, books, env.storeMs, InputsOf(env), 2, 6, slot);
    if reply.Err? {
      ErrorAdmitted(pod, pool, failOpen, b, env, 3, key, limits, cost, slot);
    } else if !reply.value.allowed {
      NotingAdmitsNothing(th1, pool, failOpen, b, env, 3, slot);
    } else {
      CreditingAdmitted(th1, pool, failOpen, b, env, slot);
      DebitIsAllowed(CreditLease(pool, env.clock(3), key, limits, reply.value.got), env.clock(4), key, limits, cost,
                     id);
    }
  }

  lemma DebitIsAllowed(p: Pool, nowMs: int, key: Key, limits: Amounts, cost: Amounts, id: string)
    ensures var decision := TryDebit(p, nowMs, key, limits, cost, id).1; decision.Some? ==> decision.value.allowed
  {
    hide TryDebit, Shows;
    DebitShows(p, nowMs, key, limits, cost, id);
  }

  lemma CheckAdmitted(pod: nat, pool: Pool, failOpen: bool, books: Books, env: L.Env, key: Key, limits: Amounts,
                      cost: Amounts, slot: Slot)
    ensures var d := L.CheckFast(pool, books, env, failOpen, key, limits, cost).2;
            AloneAdmits(Consulting(pod, key, limits, cost, env.ids(0)), pool, failOpen, books, env.storeMs,
                        InputsOf(env),
                        0, 6, slot) ==
            if d.allowed then Asked(key, limits, cost.Clamped(), slot) else 0
  {
    hide DenyGet, TryDebit, L.OnStoreErrorFast, L.CheckByBorrowing, AloneAdmits, Asked, Shown;
    var inputs := InputsOf(env);
    var start := Consulting(pod, key, limits, cost, env.ids(0));
    var (p, hit) := DenyGet(pool, env.clock(0), key);
    PoolTurnAdmits(start, pool, failOpen, books, env.storeMs, inputs, 0, 6, slot);
    IdleAdmitsNothing(p, failOpen, books, env, 1, slot);
    if hit.Some? {
      DenialIsRefusal(limits, hit.value.0, hit.value.1);
    } else if env.ids(0).None? {
      ErrorAdmitted(pod, p, failOpen, books, env, 1, key, limits, cost.Clamped(), slot);
    } else {
      var id := env.ids(0).value;
      var th1 := Debiting(pod, key, limits, cost.Clamped(), id, First);
      var (p1, decision) := TryDebit(p, env.clock(1), key, limits, cost.Clamped(), id);
      DebitTurn(th1, p, failOpen, books, env, 1, slot);
      IdleAdmitsNothing(p1, failOpen, books, env, 2, slot);
      SameConfig(pool, env.clock(0), env.clock(1), key, limits, cost.Clamped(), id);
      if decision.None? {
        BorrowingAdmitted(pod, p1, failOpen, books, env, key, limits, cost.Clamped(), id, slot);
      }
    }
  }

  /** The answer is what is charged: in the run that is a fast-path check, what is admitted to a bucket is the request's
      cost, with nothing below zero, if the caller is told that it is admitted, and nothing if it is told that it is
      not.
      So the bounds on what a fleet admits are bounds on what it tells its callers. */
  lemma AnswerIsCharged(f: Fleet, t: nat, pod: nat, env: L.Env, key: Key, limits: Amounts, cost: Amounts, slot: Slot)
    requires Ready(f, t, pod) && env.storeMs == f.nowMs
    ensures var d := L.CheckFast(f.pods[pod].pool, f.store, env, f.pods[pod].failOpen, key, limits, cost).2;
            var run := [Begin(t, Consulting(pod, key, limits, cost, env.ids(0)))] + Steps(t, InputsOf(env), 0, 6);
            Total(f, run, slot).admitted == if d.allowed then Asked(key, limits, NoLess(cost), slot) else 0
  {
    hide AloneAdmits, Steps, L.CheckFast, Asked, Total;
    var begin := Begin(t, Consulting(pod, key, limits, cost, env.ids(0)));
    var g := Next(f, begin);
    TotalNext(f, begin, Steps(t, InputsOf(env), 0, 6), slot);
    TotalOfAlone(g, t, pod, InputsOf(env), 0, 6, slot);
    CheckAdmitted(pod, f.pods[pod].pool, f.pods[pod].failOpen, f.store, env, key, limits, cost, slot);
    assert cost.Clamped() == NoLess(cost);
  }
}
