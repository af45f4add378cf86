/** A limiter call that nothing interferes with is a run of the fleet: the programs of module Fleet are the
    limiter's methods, cut at their critical sections.  So what holds of every run holds of the class. */
module Solo {
  import opened Quota
  import opened StoreSpec
  import opened PoolSpec
  import opened Fleet
  import L = LimiterSpec

  /** Let one thread take the steps from i up to n, its pod and the store touched by nobody else. */
  function Alone(th: Thread, pool: Pool, failOpen: bool, books: Books, nowMs: int, inputs: nat -> Input, i: nat,
                 n: nat): (Thread, Pool, Books)
    decreases n - i
  {
    if i >= n then (th, pool, books)
    else if AtStore(th) then
      var (th', b) := StoreStep(th, books, nowMs, inputs(i));
      Alone(th', pool, failOpen, b, nowMs, inputs, i + 1, n)
    else if Owner(th).Some? then
      var (th', p) := PoolStep(th, pool, failOpen, inputs(i));
      Alone(th', p, failOpen, books, nowMs, inputs, i + 1, n)
    else (th, pool, books)
  }

  function Steps(t: nat, inputs: nat -> Input, i: nat, n: nat): seq<Event>
    decreases n - i
  {
    if i >= n then [] else [Step(t, inputs(i))] + Steps(t, inputs, i + 1, n)
  }

  predicate Of(th: Thread, pod: nat) {
    Owner(th).Some? ==> th.pod == pod
  }

  lemma StaysOnPod(th: Thread, pool: Pool, failOpen: bool, books: Books, nowMs: int, input: Input, pod: nat)
    requires Of(th, pod)
    ensures Of(PoolStep(th, pool, failOpen, input).0, pod)
    ensures Of(StoreStep(th, books, nowMs, input).0, pod)
  {
    hide TryDebit, SettleLocal, ApplyDeficit, Snapshot, RefundLocal, Borrow, Exec, DenyGet, DenySet, Has, CreditLease,
         GetReservation;
  }

  /** Running alone is running in the fleet. */
  lemma {:induction false} AloneIsARun(f: Fleet, t: nat, pod: nat, inputs: nat -> Input, i: nat, n: nat)
    requires t in f.threads && Of(f.threads[t], pod) && IsUp(f, pod)
    ensures var home := f.pods[pod];
            var (th, p, b) := Alone(f.threads[t], home.pool, home.failOpen, f.store, f.nowMs, inputs, i, n);
            After(f, Steps(t, inputs, i, n)) ==
              f.(store := b, pods := f.pods[pod := home.(pool := p)], threads := f.threads[t := th])
    decreases n - i
  {
    hide PoolStep, StoreStep;
    var home, th := f.pods[pod], f.threads[t];
    if i >= n {
      assert f.pods[pod := home] == f.pods && f.threads[t := th] == f.threads;
    } else {
      StaysOnPod(th, home.pool, home.failOpen, f.store, f.nowMs, inputs(i), pod);
      var g := Next(f, Step(t, inputs(i)));
      AloneIsARun(g, t, pod, inputs, i + 1, n);
      if AtStore(th) || Owner(th).Some? {
        var rest := Alone(g.threads[t], g.pods[pod].pool, home.failOpen, g.store, g.nowMs, inputs, i + 1, n);
        assert g.threads[t := rest.0] == f.threads[t := rest.0];
        assert g.pods[pod := home.(pool := rest.1)] == f.pods[pod := home.(pool := rest.1)];
      } else {
        assert g == f;
        assert Alone(th, home.pool, home.failOpen, f.store, f.nowMs, inputs, i + 1, n) == (th, home.pool, f.store);
      }
    }
  }

  lemma PoolTurn(th: Thread, pool: Pool, failOpen: bool, books: Books, nowMs: int, inputs: nat -> Input, i: nat, n: nat)
    requires i < n && Owner(th).Some? && !AtStore(th)
    ensures var (th', p) := PoolStep(th, pool, failOpen, inputs(i));
            Alone(th, pool, failOpen, books, nowMs, inputs, i, n) ==
              Alone(th', p, failOpen, books, nowMs, inputs, i + 1, n)
  {
    hide PoolStep;
  }

  lemma StoreTurn(th: Thread, pool: Pool, failOpen: bool, books: Books, nowMs: int, inputs: nat -> Input, i: nat,
                  n: nat)
    requires i < n && AtStore(th)
    ensures var (th', b) := StoreStep(th, books, nowMs, inputs(i));
            Alone(th, pool, failOpen, books, nowMs, inputs, i, n) ==
              Alone(th', pool, failOpen, b, nowMs, inputs, i + 1, n)
  {
    hide StoreStep;
  }

  lemma Rests(pool: Pool, failOpen: bool, books: Books, nowMs: int, inputs: nat -> Input, i: nat, n: nat)
    ensures Alone(Idle, pool, failOpen, books, nowMs, inputs, i, n) == (Idle, pool, books)
  {
  }

  // ----- Check

  function InputsOf(env: L.Env): nat -> Input {
    (i: nat) => Input(env.clock(i), env.fault, "", env.ids(1))
  }

  lemma ErrorSteps(pod: nat, pool: Pool, failOpen: bool, books: Books, env: L.Env, i: nat, key: Key, limits: Amounts,
                   cost: Amounts)
    requires i <= 3
    ensures Alone(AfterCheckError(pod, key, limits, cost, failOpen), pool, failOpen, books, env.storeMs, InputsOf(env),
                  i, 6) ==
            (Idle, L.OnStoreErrorFast(pool, env, i, failOpen, key, limits, cost).0, books)
  {
    hide TryDebit, Has, Alone;
    var inputs := InputsOf(env);
    var p1 := Has(pool, env.clock(i), key, cost, limits).0;
    if failOpen {
      var th := Peeking(pod, key, limits, cost);
      PoolTurn(th, pool, failOpen, books, env.storeMs, inputs, i, 6);
      var th1 := PoolStep(th, pool, failOpen, inputs(i)).0;
      if th1.Debiting? {
        PoolTurn(th1, p1, failOpen, books, env.storeMs, inputs, i + 1, 6);
        Rests(TryDebit(p1, env.clock(i + 1), key, limits, cost, th1.id).0, failOpen, books, env.storeMs, inputs, i + 2,
              6);
      }
    }
    Rests(p1, failOpen, books, env.storeMs, inputs, i + 1, 6);
    Rests(pool, failOpen, books, env.storeMs, inputs, i, 6);
  }

  lemma NotingSteps(th: Thread, pool: Pool, failOpen: bool, books: Books, env: L.Env, i: nat)
    requires th.Noting? && i < 6
    ensures Alone(th, pool, failOpen, books, env.storeMs, InputsOf(env), i, 6) ==
            (Idle, DenySet(pool, env.clock(i), th.key, th.limitType, th.retryMs), books)
  {
    hide DenySet, Alone;
    PoolTurn(th, pool, failOpen, books, env.storeMs, InputsOf(env), i, 6);
    Rests(DenySet(pool, env.clock(i), th.key, th.limitType, th.retryMs), failOpen, books, env.storeMs, InputsOf(env),
          i + 1, 6);
  }

  lemma CreditingSteps(th: Thread, pool: Pool, failOpen: bool, books: Books, env: L.Env)
    requires th.Crediting?
    ensures var p1 := CreditLease(pool, env.clock(3), th.key, th.limits, th.got);
            var (p2, decision) := TryDebit(p1, env.clock(4), th.key, th.limits, th.cost, th.id);
            Alone(th, pool, failOpen, books, env.storeMs, InputsOf(env), 3, 6) ==
              (Idle, if decision.Some? then p2 else DenySet(p2, env.clock(5), th.key, Backend, 1000), books)
  {
    hide DenySet, TryDebit, CreditLease, Alone;
    var inputs := InputsOf(env);
    var p1 := CreditLease(pool, env.clock(3), th.key, th.limits, th.got);
    var (p2, decision) := TryDebit(p1, env.clock(4), th.key, th.limits, th.cost, th.id);
    PoolTurn(th, pool, failOpen, books, env.storeMs, inputs, 3, 6);
    PoolTurn(Debiting(th.pod, th.key, th.limits, th.cost, th.id, AfterBorrow), p1, failOpen, books, env.storeMs, inputs,
             4, 6);
    Rests(p2, failOpen, books, env.storeMs, inputs, 5, 6);
    NotingSteps(Noting(th.pod, th.key, Backend, 1000), p2, failOpen, books, env, 5);
  }

  lemma BorrowingSteps(pod: nat, pool: Pool, failOpen: bool, books: Books, env: L.Env, key: Key, limits: Amounts,
                       cost: Amounts, id: string)
    ensures var th := Borrowing(pod, key, limits, cost, id, pool.cfg.chunk, failOpen);
            var r := L.CheckByBorrowing(pool, books, env, failOpen, key, limits, cost, id);
            Alone(th, pool, failOpen, books, env.storeMs, InputsOf(env), 2, 6) == (Idle, r.0, r.1)
  {
    hide Borrow, DenySet, TryDebit, CreditLease, L.OnStoreErrorFast, Alone;
    var th := Borrowing(pod, key, limits, cost, id, pool.cfg.chunk, failOpen);
    var (b, reply) := Sent(env.fault, books, Borrow(books, env.storeMs, key, limits, BorrowSpec(cost, pool.cfg.chunk)));
    var th1 := AfterCall(th, books, env.storeMs, InputsOf(env)(2));
    StoreTurn(th, pool, failOpen, books, env.storeMs, InputsOf(env), 2, 6);
    if reply.Err? {
      ErrorSteps(pod, pool, failOpen, b, env, 3, key, limits, cost);
    } else if !reply.value.allowed {
      NotingSteps(th1, pool, failOpen, b, env, 3);
    } else {
      CreditingSteps(th1, pool, failOpen, b, env);
    }
  }

  lemma CheckSteps(pod: nat, pool: Pool, failOpen: bool, books: Books, env: L.Env, key: Key, limits: Amounts,
                   cost: Amounts)
    ensures var r := L.CheckFast(pool, books, env, failOpen, key, limits, cost);
            Alone(Consulting(pod, key, limits, cost, env.ids(0)), pool, failOpen, books, env.storeMs, InputsOf(env), 0,
                  6) == (Idle, r.0, r.1)
  {
    hide DenyGet, TryDebit, L.OnStoreErrorFast, L.CheckByBorrowing, Alone;
    var inputs := InputsOf(env);
    var start := Consulting(pod, key, limits, cost, env.ids(0));
    var (p, hit) := DenyGet(pool, env.clock(0), key);
    PoolTurn(start, pool, failOpen, books, env.storeMs, inputs, 0, 6);
    Rests(p, failOpen, books, env.storeMs, inputs, 1, 6);
    if hit.Some? {
    } else if env.ids(0).None? {
      ErrorSteps(pod, p, failOpen, books, env, 1, key, limits, cost.Clamped());
    } else {
      var th1 := PoolStep(start, pool, failOpen, inputs(0)).0;
      var (p1, decision) := TryDebit(p, env.clock(1), key, limits, cost.Clamped(), env.ids(0).value);
      PoolTurn(th1, p, failOpen, books, env.storeMs, inputs, 1, 6);
      Rests(p1, failOpen, books, env.storeMs, inputs, 2, 6);
      SameConfig(pool, env.clock(0), env.clock(1), key, limits, cost.Clamped(), env.ids(0).value);
      if decision.None? {
        BorrowingSteps(pod, p1, failOpen, books, env, key, limits, cost.Clamped(), env.ids(0).value);
      }
    }
  }

  lemma SameConfig(pool: Pool, t0: int, t1: int, key: Key, limits: Amounts, cost: Amounts, id: string)
    ensures var p := DenyGet(pool, t0, key).0;
            p.cfg == pool.cfg && TryDebit(p, t1, key, limits, cost, id).0.cfg == pool.cfg
  {
    hide Covers, Shown;
  }

  /** A fleet in which one call has been carried out. */
  function Done(f: Fleet, t: nat, pod: nat, pool: Pool, books: Books): Fleet
    requires IsUp(f, pod)
  {
    f.(store := books, pods := f.pods[pod := f.pods[pod].(pool := pool)], threads := f.threads[t := Idle])
  }

  predicate Ready(f: Fleet, t: nat, pod: nat) {
    IsUp(f, pod) && (t in f.threads ==> f.threads[t].Idle?)
  }

  lemma StartAlone(f: Fleet, t: nat, pod: nat, start: Thread, inputs: nat -> Input, n: nat, pool: Pool, books: Books)
    requires Ready(f, t, pod) && IsStart(start) && Of(start, pod)
    requires Alone(start, f.pods[pod].pool, f.pods[pod].failOpen, f.store, f.nowMs, inputs, 0, n) == (Idle, pool, books)
    ensures After(f, [Begin(t, start)] + Steps(t, inputs, 0, n)) == Done(f, t, pod, pool, books)
  {
    hide Alone, Steps, AtStore, IsStart;
    var g := Next(f, Begin(t, start));
    AloneIsARun(g, t, pod, inputs, 0, n);
    assert ([Begin(t, start)] + Steps(t, inputs, 0, n))[1..] == Steps(t, inputs, 0, n);
    assert g.threads[t := Idle] == f.threads[t := Idle];
  }

  /** A fast-path check is seven events of the fleet. */
  lemma CheckIsARun(f: Fleet, t: nat, pod: nat, env: L.Env, key: Key, limits: Amounts, cost: Amounts)
    requires Ready(f, t, pod) && env.storeMs == f.nowMs
    ensures var r := L.CheckFast(f.pods[pod].pool, f.store, env, f.pods[pod].failOpen, key, limits, cost);
            After(f, [Begin(t, Consulting(pod, key, limits, cost, env.ids(0)))] + Steps(t, InputsOf(env), 0, 6)) ==
            Done(f, t, pod, r.0, r.1)
  {
    hide Alone, L.CheckFast;
    CheckSteps(pod, f.pods[pod].pool, f.pods[pod].failOpen, f.store, env, key, limits, cost);
    var r := L.CheckFast(f.pods[pod].pool, f.store, env, f.pods[pod].failOpen, key, limits, cost);
    StartAlone(f, t, pod, Consulting(pod, key, limits, cost, env.ids(0)), InputsOf(env), 6, r.0, r.1);
  }

  // ----- Settle, SettleIO and Refund

  lemma ReportSteps(pod: nat, pool: Pool, failOpen: bool, books: Books, env: L.Env, id: string)
    ensures Alone(LookingUp(pod, id, ToReport), pool, failOpen, books, env.storeMs, InputsOf(env), 5, 6) ==
            (Idle, GetReservation(pool, env.clock(5), id).0, books)
  {
    hide GetReservation, Alone;
    PoolTurn(LookingUp(pod, id, ToReport), pool, failOpen, books, env.storeMs, InputsOf(env), 5, 6);
    Rests(GetReservation(pool, env.clock(5), id).0, failOpen, books, env.storeMs, InputsOf(env), 6, 6);
  }

  lemma CoveringSteps(th: Thread, pool: Pool, failOpen: bool, books: Books, env: L.Env, dec: Decision)
    requires th.Covering? && th.need == DeficitOf(th.split, dec.overshoot)
    ensures var r := L.CoverDeficit(pool, books, env, th.id, th.key, th.limits, th.split, dec);
            Alone(th, pool, failOpen, books, env.storeMs, InputsOf(env), 2, 6) == (Idle, r.0, r.1)
  {
    hide Borrow, CreditLease, ApplyDeficit, GetReservation, Alone;
    var inputs := InputsOf(env);
    var b := Sent(env.fault, books, Borrow(books, env.storeMs, th.key, th.limits, BorrowSpec(th.need, th.need))).0;
    var th1 := AfterCall(th, books, env.storeMs, inputs(2));
    StoreTurn(th, pool, failOpen, books, env.storeMs, inputs, 2, 6);
    if th1.CreditingDeficit? {
      var p1 := CreditLease(pool, env.clock(3), th.key, th.limits, Masked(th.split, th1.got));
      var p2 := ApplyDeficit(p1, env.clock(4), th.id, th.split, th1.got);
      PoolTurn(th1, pool, failOpen, b, env.storeMs, inputs, 3, 6);
      PoolTurn(Applying(th.pod, th.id, th1.got, th.split), p1, failOpen, b, env.storeMs, inputs, 4, 6);
      ReportSteps(th.pod, p2, failOpen, b, env, th.id);
    } else {
      Rests(pool, failOpen, b, env.storeMs, inputs, 3, 6);
    }
  }

  /** A settlement that finds nothing at home goes to the store. */
  lemma CallingSteps(call: Call, pool: Pool, failOpen: bool, books: Books, env: L.Env)
    ensures Alone(Calling(call), pool, failOpen, books, env.storeMs, InputsOf(env), 1, 6) ==
            (Idle, pool, if env.fault.NotSent? then books else Exec(books, env.storeMs, call))
  {
    hide Exec, Alone;
    StoreTurn(Calling(call), pool, failOpen, books, env.storeMs, InputsOf(env), 1, 6);
    var b := StoreStep(Calling(call), books, env.storeMs, InputsOf(env)(1)).1;
    Rests(pool, failOpen, b, env.storeMs, InputsOf(env), 2, 6);
  }

  lemma SettlingSteps(th: Thread, pool: Pool, failOpen: bool, books: Books, env: L.Env)
    requires th.Settling?
    ensures var (p1, reply) := SettleLocal(pool, env.clock(1), th.id, th.split, th.actual);
            Alone(th, pool, failOpen, books, env.storeMs, InputsOf(env), 1, 6) ==
            if reply.Err? || !HasDeficit(DeficitOf(th.split, reply.value.overshoot)) then (Idle, p1, books)
            else
              var r := L.CoverDeficit(p1, books, env, th.id, th.key, th.limits, th.split, reply.value);
              (Idle, r.0, r.1)
  {
    hide SettleLocal, L.CoverDeficit, Alone, HasDeficit, DeficitOf;
    var (p1, reply) := SettleLocal(pool, env.clock(1), th.id, th.split, th.actual);
    PoolTurn(th, pool, failOpen, books, env.storeMs, InputsOf(env), 1, 6);
    var th2 := AfterSettle(th, reply);
    if th2.Covering? {
      CoveringSteps(th2, p1, failOpen, books, env, reply.value);
    } else {
      Rests(p1, failOpen, books, env.storeMs, InputsOf(env), 2, 6);
    }
  }

  lemma SettleSteps(pod: nat, pool: Pool, failOpen: bool, books: Books, env: L.Env, id: string, split: bool,
                    actual: Amounts)
    ensures var r := L.SettleFast(pool, books, env, id, split, actual);
            Alone(LookingUp(pod, id, ToSettle(split, actual)), pool, failOpen, books, env.storeMs, InputsOf(env), 0,
                  6) == (Idle, r.0, r.1)
  {
    hide Settle, SettleLocal, GetReservation, L.CoverDeficit, Alone;
    var inputs := InputsOf(env);
    var start := LookingUp(pod, id, ToSettle(split, actual));
    var (p, found) := GetReservation(pool, env.clock(0), id);
    PoolTurn(start, pool, failOpen, books, env.storeMs, inputs, 0, 6);
    if found.None? {
      CallingSteps(SettleCall(id, split, actual), p, failOpen, books, env);
    } else if found.value.split == split {
      SettlingSteps(Settling(pod, id, found.value.key, found.value.limits, split, actual), p, failOpen, books, env);
    } else {
      Rests(p, failOpen, books, env.storeMs, inputs, 1, 6);
    }
  }

  /** A settlement is seven events of the fleet. */
  lemma SettleIsARun(f: Fleet, t: nat, pod: nat, env: L.Env, id: string, split: bool, actual: Amounts)
    requires Ready(f, t, pod) && env.storeMs == f.nowMs
    ensures var r := L.SettleFast(f.pods[pod].pool, f.store, env, id, split, actual);
            After(f, [Begin(t, LookingUp(pod, id, ToSettle(split, actual)))] + Steps(t, InputsOf(env), 0, 6)) ==
            Done(f, t, pod, r.0, r.1)
  {
    hide Alone, L.SettleFast;
    SettleSteps(pod, f.pods[pod].pool, f.pods[pod].failOpen, f.store, env, id, split, actual);
    var r := L.SettleFast(f.pods[pod].pool, f.store, env, id, split, actual);
    StartAlone(f, t, pod, LookingUp(pod, id, ToSettle(split, actual)), InputsOf(env), 6, r.0, r.1);
  }

  lemma RefundSteps(pod: nat, pool: Pool, failOpen: bool, books: Books, env: L.Env, id: string)
    ensures var r := L.RefundFast(pool, books, env, id);
            Alone(LookingUp(pod, id, ToRefund), pool, failOpen, books, env.storeMs, InputsOf(env), 0, 6) ==
              (Idle, r.0, r.1)
  {
    hide Refund, RefundLocal, GetReservation, Alone;
    var inputs := InputsOf(env);
    var start := LookingUp(pod, id, ToRefund);
    var (p, found) := GetReservation(pool, env.clock(0), id);
    PoolTurn(start, pool, failOpen, books, env.storeMs, inputs, 0, 6);
    if found.None? {
      CallingSteps(RefundCall(id), p, failOpen, books, env);
    } else {
      PoolTurn(Refunding(pod, id), p, failOpen, books, env.storeMs, inputs, 1, 6);
      Rests(RefundLocal(p, env.clock(1), id).0, failOpen, books, env.storeMs, inputs, 2, 6);
    }
  }

  /** A refund is seven events of the fleet. */
  lemma RefundIsARun(f: Fleet, t: nat, pod: nat, env: L.Env, id: string)
    requires Ready(f, t, pod) && env.storeMs == f.nowMs
    ensures var r := L.RefundFast(f.pods[pod].pool, f.store, env, id);
            After(f, [Begin(t, LookingUp(pod, id, ToRefund))] + Steps(t, InputsOf(env), 0, 6)) ==
              Done(f, t, pod, r.0, r.1)
  {
    hide Alone, L.RefundFast;
    RefundSteps(pod, f.pods[pod].pool, f.pods[pod].failOpen, f.store, env, id);
    var r := L.RefundFast(f.pods[pod].pool, f.store, env, id);
    StartAlone(f, t, pod, LookingUp(pod, id, ToRefund), InputsOf(env), 6, r.0, r.1);
  }

  // ----- Close

  /** What is left to return after the first j entries. */
  function Left(out: map<string, Lease>, order: seq<string>, j: nat): map<string, Lease>
    requires j <= |order|
  {
    map k | k in out && k !in order[..j] :: out[k]
  }

  lemma NothingLeft(out: map<string, Lease>, order: seq<string>)
    requires L.Visits(order, out)
    ensures Left(out, order, |order|) == map[]
  {
    assert order[..|order|] == order;
  }

  lemma OneFewer(out: map<string, Lease>, order: seq<string>, j: nat)
    requires L.Visits(order, out) && j < |order|
    ensures order[j] in Left(out, order, j) && Left(out, order, j)[order[j]] == out[order[j]]
    ensures Left(out, order, j + 1) == Left(out, order, j) - {order[j]}
  {
    assert order[..j + 1] == order[..j] + [order[j]];
  }

  lemma ReturnEachNext(books: Books, rs: L.Returns, out: map<string, Lease>, order: seq<string>, j: nat)
    requires j < |order| && forall k | k in order :: k in out
    ensures L.ReturnEach(books, rs, out, order[..j + 1]).0 ==
            L.ReturnOne(L.ReturnEach(books, rs, out, order[..j]).0, rs, order[j], out[order[j]]).0
  {
    hide L.ReturnOne;
    assert order[..j + 1][..j] == order[..j];
  }

  lemma ReturnOneIsAStep(pod: nat, b: Books, nowMs: int, rs: L.Returns, k: string, pending: map<string, Lease>,
                         input: Input)
    requires k in pending && input.pick == k && input.fault == rs.fault(k) && rs.atMs(k) == nowMs
    ensures StoreStep(Returning(pod, pending), b, nowMs, input) ==
            (Returning(pod, pending - {k}), L.ReturnOne(b, rs, k, pending[k]).0)
  {
    hide Return, SplitKey;
  }

  /** Each entry is returned at its time, one after the other. */
  predicate InTime(rs: L.Returns, order: seq<string>, j: nat, nowMs: int)
    requires j <= |order|
    decreases |order| - j
  {
    j == |order| || (nowMs <= rs.atMs(order[j]) && InTime(rs, order, j + 1, rs.atMs(order[j])))
  }

  /** The events of the returns from entry j on: wait, call the store, and in the end stop. */
  function ReturnEvents(t: nat, rs: L.Returns, order: seq<string>, j: nat, nowMs: int): seq<Event>
    requires j <= |order| && InTime(rs, order, j, nowMs)
    decreases |order| - j
  {
    if j == |order| then [Step(t, Input(0, NoFault, "", None))]
    else
      var at := rs.atMs(order[j]);
      [Tick(at - nowMs), Step(t, Input(0, rs.fault(order[j]), order[j], None))] + ReturnEvents(t, rs, order, j + 1, at)
  }

  function LastReturn(rs: L.Returns, order: seq<string>, nowMs: int): int {
    if order == [] then nowMs else rs.atMs(order[|order| - 1])
  }

  lemma AllVisited(order: seq<string>, out: map<string, Lease>)
    requires L.Visits(order, out)
    ensures forall k | k in order :: k in out
  {
  }

  lemma AfterTwo(f: Fleet, e1: Event, e2: Event, rest: seq<Event>)
    ensures After(f, [e1, e2] + rest) == After(Next(Next(f, e1), e2), rest)
  {
    hide Next;
    var run := [e1, e2] + rest;
    assert run[1..] == [e2] + rest && run[1..][1..] == rest;
  }

  /** One entry: the clock moves on and the store call is made. */
  lemma OneReturned(g: Fleet, t: nat, pod: nat, books: Books, rs: L.Returns, out: map<string, Lease>,
                    order: seq<string>, j: nat)
    requires L.Visits(order, out) && j < |order| && IsUp(g, pod) && g.nowMs <= rs.atMs(order[j])
    requires t in g.threads && g.threads[t] == Returning(pod, Left(out, order, j))
    requires (forall k | k in order :: k in out) && g.store == L.ReturnEach(books, rs, out, order[..j]).0
    ensures var at := rs.atMs(order[j]);
            Next(Next(g, Tick(at - g.nowMs)), Step(t, Input(0, rs.fault(order[j]), order[j], None))) ==
            g.(nowMs := at, store := L.ReturnEach(books, rs, out, order[..j + 1]).0,
               threads := g.threads[t := Returning(pod, Left(out, order, j + 1))])
  {
    hide L.ReturnEach, L.ReturnOne, Exec, Sent, L.Visits, Left, SplitKey, StoreStep, PoolStep;
    var k, at := order[j], rs.atMs(order[j]);
    OneFewer(out, order, j);
    ReturnEachNext(books, rs, out, order, j);
    ReturnOneIsAStep(pod, g.store, at, rs, k, Left(out, order, j), Input(0, rs.fault(k), k, None));
  }

  lemma {:induction false} ReturningRun(g: Fleet, t: nat, pod: nat, books: Books, rs: L.Returns,
                                        out: map<string, Lease>, order: seq<string>, j: nat)
    requires L.Visits(order, out) && j <= |order| && IsUp(g, pod) && InTime(rs, order, j, g.nowMs)
    requires t in g.threads && g.threads[t] == Returning(pod, Left(out, order, j))
    requires (forall k | k in order :: k in out) && g.store == L.ReturnEach(books, rs, out, order[..j]).0
    ensures After(g, ReturnEvents(t, rs, order, j, g.nowMs)) ==
            g.(nowMs := if j == |order| then g.nowMs else LastReturn(rs, order, g.nowMs),
               store := L.ReturnEach(books, rs, out, order).0, threads := g.threads[t := Idle])
    decreases |order| - j
  {
    hide L.ReturnEach, Left, L.Visits, Next, After;
    if j == |order| {
      assert order[..j] == order;
      Ends(g, t, pod, out, order);
    } else {
      var at := rs.atMs(order[j]);
      var step := Step(t, Input(0, rs.fault(order[j]), order[j], None));
      OneReturned(g, t, pod, books, rs, out, order, j);
      AfterTwo(g, Tick(at - g.nowMs), step, ReturnEvents(t, rs, order, j + 1, at));
      var g' := Next(Next(g, Tick(at - g.nowMs)), step);
      ReturningRun(g', t, pod, books, rs, out, order, j + 1);
      assert g'.threads[t := Idle] == g.threads[t := Idle];
    }
  }

  /** With nothing left the call is over. */
  lemma Ends(g: Fleet, t: nat, pod: nat, out: map<string, Lease>, order: seq<string>)
    requires L.Visits(order, out) && IsUp(g, pod)
    requires t in g.threads && g.threads[t] == Returning(pod, Left(out, order, |order|))
    ensures After(g, [Step(t, Input(0, NoFault, "", None))]) == g.(threads := g.threads[t := Idle])
  {
    hide PoolStep, L.Visits, Left;
    NothingLeft(out, order);
    var run := [Step(t, Input(0, NoFault, "", None))];
    assert run[1..] == [];
    assert After(Next(g, run[0]), []) == Next(g, run[0]);
  }

  /** The snapshot. */
  lemma BeginsClosing(f: Fleet, t: nat, pod: nat, atMs: int, rest: seq<Event>)
    requires Ready(f, t, pod)
    ensures var (p, out) := Snapshot(f.pods[pod].pool, atMs);
            After(f, [Begin(t, Closing(pod)), Step(t, Input(atMs, NoFault, "", None))] + rest) ==
            After(f.(pods := f.pods[pod := f.pods[pod].(pool := p)],
                     threads := f.threads[t := Returning(pod, out)]), rest)
  {
    hide Snapshot, StoreStep, PoolStep, After;
    var begin, step := Begin(t, Closing(pod)), Step(t, Input(atMs, NoFault, "", None));
    AfterTwo(f, begin, step, rest);
    TakesSnapshot(pod, f.pods[pod].pool, f.pods[pod].failOpen, step.input);
    var g := Next(f, begin);
    assert g == f.(threads := f.threads[t := Closing(pod)]);
    var (p, out) := Snapshot(f.pods[pod].pool, atMs);
    assert g.threads[t := Returning(pod, out)] == f.threads[t := Returning(pod, out)];
  }

  lemma TakesSnapshot(pod: nat, pool: Pool, failOpen: bool, input: Input)
    ensures var (p, out) := Snapshot(pool, input.clockMs);
            PoolStep(Closing(pod), pool, failOpen, input) == (Returning(pod, out), p)
  {
    hide Snapshot;
  }

  /** Closing is one snapshot and one store call per entry, in any order and each at its own time. */
  lemma CloseIsARun(f: Fleet, t: nat, pod: nat, atMs: int, rs: L.Returns, order: seq<string>)
    requires Ready(f, t, pod) && InTime(rs, order, 0, f.nowMs)
    requires L.Visits(order, Snapshot(f.pods[pod].pool, atMs).1)
    ensures var (p, out) := Snapshot(f.pods[pod].pool, atMs);
            After(f, [Begin(t, Closing(pod)), Step(t, Input(atMs, NoFault, "", None))] +
                     ReturnEvents(t, rs, order, 0, f.nowMs)) ==
            Done(f, t, pod, p, L.ReturnEach(f.store, rs, out, order).0).(nowMs := LastReturn(rs, order, f.nowMs))
  {
    hide Snapshot, L.ReturnEach, Left, L.Visits, After, Next;
    var (p, out) := Snapshot(f.pods[pod].pool, atMs);
    AllVisited(order, out);
    BeginsClosing(f, t, pod, atMs, ReturnEvents(t, rs, order, 0, f.nowMs));
    NothingReturned(f.store, rs, out, order);
    var g := f.(pods := f.pods[pod := f.pods[pod].(pool := p)], threads := f.threads[t := Returning(pod, out)]);
    ReturningRun(g, t, pod, f.store, rs, out, order, 0);
    assert g.threads[t := Idle] == f.threads[t := Idle];
  }

  lemma NothingReturned(books: Books, rs: L.Returns, out: map<string, Lease>, order: seq<string>)
    ensures L.ReturnEach(books, rs, out, order[..0]) == (books, Ok(()))
    ensures Left(out, order, 0) == out
  {
  }
}
