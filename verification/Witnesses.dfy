/** Concrete runs: the bounds are reached, and what the documents promise beyond them does not hold. */
module Witnesses {
  import opened Quota
  import opened Bucket
  import opened StoreSpec
  import opened StoreLedger
  import opened StoreLaws
  import opened Waiting
  import opened PoolSpec
  import opened PoolLedger
  import opened Fleet
  import opened FleetLedger
  import opened FleetBounds
  import opened Solo
  import opened Surplus
  import L = LimiterSpec

  const TENANT := Key("t", "m")

  // ----- the request bound is reached

  function DirectCheck(m: nat, id: string): Thread {
    Calling(CheckCall(TENANT, Amounts(m, 0, 0, 0), Amounts(m, 0, 0, 0), id))
  }

  const AT_ONCE := Input(0, NoFault, "", None)

  /** A direct check for the whole limit is admitted when the request bucket is full, and empties it. */
  lemma WholeLimitAdmitted(b: Books, nowMs: int, m: nat, id: string)
    requires 0 < nowMs && id != ""
    requires b.Load(Rpm, BucketKey(TENANT), Amounts(m, 0, 0, 0), nowMs) == State(m * UNIT, nowMs, m)
    ensures var all := Amounts(m, 0, 0, 0);
            var (b', reply) := Check(b, nowMs, TENANT, all, all, id);
            Admits(reply) && CellAt(b', Slot(Rpm, BucketKey(TENANT))) == Some(Cell(0, nowMs))
  {
    hide Check, LoadBucket, CellIn;
    var all, k := Amounts(m, 0, 0, 0), BucketKey(TENANT);
    forall a | Metered(false, a)
      ensures AxisAdmits(b, a, k, all, nowMs, all)
    {
      if a == Tpm {
        EmptyAxisAdmits(b.tpm, k, nowMs);
      }
    }
    AdmitsIff(b, nowMs, TENANT, all, all, id);
    CheckWrites(b, nowMs, TENANT, all, all, id, Slot(Rpm, k));
  }

  lemma EmptyAxisAdmits(shelf: map<string, Cell>, k: string, nowMs: int)
    ensures TryConsume(LoadBucket(shelf, k, 0, nowMs), nowMs, 0).1.allowed
  {
  }

  // ----- runs are added up piece by piece

  lemma RunsAdd(f: Fleet, first: seq<Event>, rest: seq<Event>, slot: Slot)
    ensures After(f, first + rest) == After(After(f, first), rest)
    ensures Total(f, first + rest, slot) == Total(f, first, slot).Plus(Total(After(f, first), rest, slot))
    ensures Elapsed(first + rest) == Elapsed(first) + Elapsed(rest)
  {
    hide After, Total, Elapsed;
    AfterAdds(f, first, rest);
    TotalAdds(f, first, rest, slot);
    ElapsedAdds(first, rest);
  }

  lemma {:induction false} AfterAdds(f: Fleet, first: seq<Event>, rest: seq<Event>)
    ensures After(f, first + rest) == After(After(f, first), rest)
    decreases |first|
  {
    hide Next;
    if first == [] {
      assert first + rest == rest;
    } else {
      assert (first + rest)[1..] == first[1..] + rest;
      AfterAdds(Next(f, first[0]), first[1..], rest);
    }
  }

  lemma {:induction false} TotalAdds(f: Fleet, first: seq<Event>, rest: seq<Event>, slot: Slot)
    ensures Total(f, first + rest, slot) == Total(f, first, slot).Plus(Total(After(f, first), rest, slot))
    decreases |first|
  {
    hide Next, Charge, Account.Plus;
    if first == [] {
      assert first + rest == rest;
      PlusNothing(Total(f, rest, slot));
    } else {
      var e, others := first[0], first[1..];
      assert (first + rest)[1..] == others + rest;
      TotalAdds(Next(f, e), others, rest, slot);
      PlusAssociates(Charge(f, e, slot), Total(Next(f, e), others, slot), Total(After(f, first), rest, slot));
    }
  }

  lemma {:induction false} ElapsedAdds(first: seq<Event>, rest: seq<Event>)
    ensures Elapsed(first + rest) == Elapsed(first) + Elapsed(rest)
    decreases |first|
  {
    if first == [] {
      assert first + rest == rest;
    } else {
      assert (first + rest)[1..] == first[1..] + rest;
      ElapsedAdds(first[1..], rest);
    }
  }

  lemma PlusNothing(x: Account)
    ensures NOTHING.Plus(x) == x && x.Plus(NOTHING) == x
  {
  }

  lemma PlusAssociates(x: Account, y: Account, z: Account)
    ensures x.Plus(y.Plus(z)) == x.Plus(y).Plus(z)
  {
  }

  lemma OneEvent(f: Fleet, e: Event, slot: Slot)
    ensures After(f, [e]) == Next(f, e)
    ensures Total(f, [e], slot) == Charge(f, e, slot)
    ensures Elapsed([e]) == if e.Tick? then e.ms else 0
  {
    hide Next, Charge, Account.Plus;
    assert [e][1..] == [];
    assert After(Next(f, e), []) == Next(f, e);
    assert Total(Next(f, e), [], slot) == NOTHING;
    PlusNothing(Charge(f, e, slot));
  }

  function Spend(m: nat, id: string): seq<Event> {
    [Begin(0, DirectCheck(m, id))] + [Step(0, AT_ONCE)]
  }

  lemma CheckStep(f: Fleet, m: nat, id: string)
    requires 0 < f.nowMs && id != "" && 0 in f.threads && f.threads[0] == DirectCheck(m, id)
    requires f.store.Load(Rpm, BucketKey(TENANT), Amounts(m, 0, 0, 0), f.nowMs) == State(m * UNIT, f.nowMs, m)
    ensures var slot := Slot(Rpm, BucketKey(TENANT));
            var g := Next(f, Step(0, AT_ONCE));
            var c := Charge(f, Step(0, AT_ONCE), slot);
            c.admitted == m && c.refunded == 0 && g.nowMs == f.nowMs && 0 in g.threads && g.threads[0].Idle? &&
            CellAt(g.store, slot) == Some(Cell(0, f.nowMs))
  {
    hide Check, Forgotten, LoadBucket, CellIn, Settle, Refund, Borrow, Return;
    WholeLimitAdmitted(f.store, f.nowMs, m, id);
  }

  lemma SpendAll(f: Fleet, m: nat, id: string)
    requires 0 < f.nowMs && id != "" && (0 in f.threads ==> f.threads[0].Idle?)
    requires f.store.Load(Rpm, BucketKey(TENANT), Amounts(m, 0, 0, 0), f.nowMs) == State(m * UNIT, f.nowMs, m)
    ensures var slot := Slot(Rpm, BucketKey(TENANT));
            var g := After(f, Spend(m, id));
            var c := Total(f, Spend(m, id), slot);
            c.admitted == m && c.refunded == 0 && Elapsed(Spend(m, id)) == 0 &&
            g.nowMs == f.nowMs && (0 in g.threads ==> g.threads[0].Idle?) &&
              CellAt(g.store, slot) == Some(Cell(0, f.nowMs))
  {
    hide StoreStep, PoolStep, StoreCharge, PoolCharge, LoadBucket, CellIn, Total, After, Elapsed;
    var slot := Slot(Rpm, BucketKey(TENANT));
    var begin, step := Begin(0, DirectCheck(m, id)), Step(0, AT_ONCE);
    var f1 := Next(f, begin);
    CheckStep(f1, m, id);
    RunsAdd(f, [begin], [step], slot);
    OneEvent(f, begin, slot);
    OneEvent(f1, step, slot);
  }

  lemma Waits(f: Fleet, ms: nat, slot: Slot)
    ensures After(f, [Tick(ms)]) == f.(nowMs := f.nowMs + ms) && Total(f, [Tick(ms)], slot) == NOTHING &&
            Elapsed([Tick(ms)]) == ms
  {
    hide Total, After, Elapsed;
    OneEvent(f, Tick(ms), slot);
  }

  /** Spend the whole minute's requests, wait a minute, and spend them again. */
  function FullSpeed(m: nat): seq<Event> {
    Spend(m, "a") + ([Tick(60_000)] + Spend(m, "b"))
  }

  /** The request bound is tight: at any limit there is a run that admits all it allows. */
  lemma BoundIsReached(startMs: int, m: nat)
    requires 0 < startMs
    ensures var slot := Slot(Rpm, BucketKey(TENANT));
            var c := Total(ColdStart(startMs), FullSpeed(m), slot);
            RunWithin(FullSpeed(m), slot, m) &&
            (c.admitted - c.refunded) * UNIT == m * UNIT + Gain(m, Elapsed(FullSpeed(m)))
  {
    hide Total, After, LoadBucket, CellIn, Elapsed;
    var slot, f0 := Slot(Rpm, BucketKey(TENANT)), ColdStart(startMs);
    ColdIsFull(startMs, m);
    SpendAll(f0, m, "a");
    var f1 := After(f0, Spend(m, "a"));
    Waits(f1, 60_000, slot);
    RefilledInAMinute(f1.store, startMs, m);
    var f2 := After(f1, [Tick(60_000)]);
    SpendAll(f2, m, "b");
    RunsAdd(f1, [Tick(60_000)], Spend(m, "b"), slot);
    RunsAdd(f0, Spend(m, "a"), [Tick(60_000)] + Spend(m, "b"), slot);
  }

  lemma ColdIsFull(nowMs: int, m: nat)
    ensures EMPTY.Load(Rpm, BucketKey(TENANT), Amounts(m, 0, 0, 0), nowMs) == State(m * UNIT, nowMs, m)
  {
  }

  lemma RefilledInAMinute(b: Books, startMs: int, m: nat)
    requires 0 < startMs && CellAt(b, Slot(Rpm, BucketKey(TENANT))) == Some(Cell(0, startMs))
    ensures b.Load(Rpm, BucketKey(TENANT), Amounts(m, 0, 0, 0), startMs + 60_000) ==
            State(m * UNIT, startMs + 60_000, m)
  {
  }

  // ----- a deficit grant is applied twice

  const T := 1000
  const TERMS := Amounts(100, 1000, 0, 0)
  const COST := Amounts(1, 500, 0, 0)
  const CFG := Config(Amounts(5, 500, 500, 500), 2000)
  const QUIET := L.Env((_: nat) => T, T, NoFault, (_: nat) => Some("a"))
  const K := BucketKey(TENANT)

  /** The pool and the store after the first check: the lease keeps what the request did not use. */
  const LEASED := Pool(CFG, map[K := Lease(Amounts(4, 0, 0, 0), TERMS, T + 2000)],
                       map["a" := Reservation(TENANT, false, COST, TERMS, ZERO, Pending, NO_DECISION,
                                              T + RESERVATION_TTL)], map[])
  const LENT: Books := Shelves(map[K := Cell(95 * UNIT, T)], map[K := Cell(500 * UNIT, T)], map[], map[], map[])

  lemma FirstBorrow()
    ensures var (b, reply) := Borrow(EMPTY, T, TENANT, TERMS, BorrowSpec(COST, CFG.chunk));
            b == LENT && reply.Ok? && reply.value.allowed && reply.value.got == Amounts(5, 500, 0, 0)
  {
    hide BucketKey;
  }

  lemma FirstMiss()
    ensures var p := EmptyPool(CFG);
            p.cfg == CFG && DenyGet(p, T, TENANT) == (p, None) && TryDebit(p, T, TENANT, TERMS, COST, "a") == (p, None)
  {
    hide BucketKey, EmptyPool, Normalized;
    FreshPool();
    assert Unexpired(map[], T) == map[];
  }

  /** The pool once the first grant is in. */
  const FILLED := Pool(CFG, map[K := Lease(Amounts(5, 500, 0, 0), TERMS, T + 2000)], map[], map[])

  lemma FreshPool()
    ensures EmptyPool(CFG) == Pool(CFG, map[], map[], map[])
  {
    assert Normalized(CFG) == CFG;
  }

  lemma FirstCredit()
    ensures CreditLease(EmptyPool(CFG), T, TENANT, TERMS, Amounts(5, 500, 0, 0)) == FILLED
  {
    hide BucketKey, EmptyPool, Normalized;
    FreshPool();
    CreditsNewLease(Pool(CFG, map[], map[], map[]), TERMS, Amounts(5, 500, 0, 0));
  }

  lemma CreditsNewLease(p: Pool, limits: Amounts, got: Amounts)
    requires p.leases == map[]
    ensures CreditLease(p, T, TENANT, limits, got) == p.(leases := map[K := Lease(got, limits, T + p.cfg.leaseTtlMs)])
  {
    hide BucketKey;
  }

  lemma FilledIsLive()
    ensures Swept(PurgedPool(FILLED, T), K, T) == FILLED
  {
    hide BucketKey;
    assert Unexpired(FILLED.res, T) == FILLED.res;
  }

  lemma FirstHit()
    ensures var (q, decision) := TryDebit(FILLED, T, TENANT, TERMS, COST, "a");
            q == LEASED && decision.Some? && decision.value.allowed
  {
    hide BucketKey, Swept, PurgedPool;
    FilledIsLive();
  }

  lemma FirstCheck()
    ensures var r := L.CheckFast(EmptyPool(CFG), EMPTY, QUIET, false, TENANT, TERMS, COST);
            r.0 == LEASED && r.1 == LENT && r.2.allowed
  {
    hide BucketKey, Borrow, DenyGet, TryDebit, CreditLease, EmptyPool;
    FirstBorrow();
    FirstMiss();
    FirstCredit();
    FirstHit();
  }

  const SPENT := Amounts(0, 600, 0, 0)
  const SHORT := Amounts(0, 100, 0, 0)

  /** The local settlement finds the lease's tokens 100 short of what was used. */
  const OWING := Pool(CFG, map[K := Lease(Amounts(4, 0, 0, 0), TERMS, T + 2000)],
                      map["a" := Reservation(TENANT, false, COST, TERMS, SPENT, Settled,
                                             Decision(true, NoLimit, Amounts(4, 0, 0, 0), TERMS, 0, "a", SHORT),
                                             T + RESERVATION_TTL)], map[])
  const LENT_MORE: Books := Shelves(map[K := Cell(95 * UNIT, T)], map[K := Cell(400 * UNIT, T)], map[], map[], map[])

  lemma LocalSettlement()
    ensures GetReservation(LEASED, T, "a") == (LEASED, Some(LEASED.res["a"]))
    ensures SettleLocal(LEASED, T, "a", false, SPENT) == (OWING, Ok(OWING.res["a"].last))
  {
    hide BucketKey;
    assert Unexpired(LEASED.res, T) == LEASED.res;
    var r := LEASED.res["a"];
    var had := Amounts(4, 0, 0, 0);
    assert Each(a => DeltaOn(r, had, SPENT, a).0) == had;
    assert Each(a => DeltaOn(r, had, SPENT, a).1) == SHORT;
    var q := SettleLocal(LEASED, T, "a", false, SPENT).0;
    assert q.leases == OWING.leases && q.res["a"] == OWING.res["a"];
    assert q.res == OWING.res;
  }

  lemma SecondBorrow()
    ensures var (b, reply) := Borrow(LENT, T, TENANT, TERMS, BorrowSpec(SHORT, SHORT));
            b == LENT_MORE && reply.Ok? && reply.value.allowed && reply.value.got == SHORT
  {
    hide BucketKey;
  }

  function Scene(pool: Pool, books: Books, th: Thread): Fleet {
    Fleet(T, books, map[0 := Up(pool, false)], map[0 := th])
  }

  function CheckRun(): seq<Event> {
    [Begin(0, Consulting(0, TENANT, TERMS, COST, QUIET.ids(0)))] + Steps(0, InputsOf(QUIET), 0, 6)
  }

  const SETTLING := LookingUp(0, "a", ToSettle(false, SPENT))
  const APPLYING := Applying(0, "a", SHORT, false)

  /** The settlement up to the point where the grant is in the lease and is about to be applied. */
  lemma UpToApplying()
    ensures Alone(SETTLING, LEASED, false, LENT, T, InputsOf(QUIET), 0, 4) ==
            (APPLYING, CreditLease(OWING, T, TENANT, TERMS, SHORT), LENT_MORE)
  {
    hide Alone, GetReservation, SettleLocal, Borrow, CreditLease, BucketKey;
    UpToBorrowing();
    FromBorrowing();
  }

  const COVERING := Covering(0, "a", TENANT, TERMS, SHORT, false)

  lemma UpToBorrowing()
    ensures Alone(SETTLING, LEASED, false, LENT, T, InputsOf(QUIET), 0, 4) ==
            Alone(COVERING, OWING, false, LENT, T, InputsOf(QUIET), 2, 4)
  {
    hide Alone, GetReservation, SettleLocal, BucketKey;
    LocalSettlement();
    PoolTurn(SETTLING, LEASED, false, LENT, T, InputsOf(QUIET), 0, 4);
    PoolTurn(Settling(0, "a", TENANT, TERMS, false, SPENT), LEASED, false, LENT, T, InputsOf(QUIET), 1, 4);
  }

  lemma FromBorrowing()
    ensures Alone(COVERING, OWING, false, LENT, T, InputsOf(QUIET), 2, 4) ==
            (APPLYING, CreditLease(OWING, T, TENANT, TERMS, SHORT), LENT_MORE)
  {
    hide Alone, Borrow, CreditLease, BucketKey;
    SecondBorrow();
    StoreTurn(COVERING, OWING, false, LENT, T, InputsOf(QUIET), 2, 4);
    PoolTurn(CreditingDeficit(0, "a", TENANT, TERMS, SHORT, false), OWING, false, LENT_MORE, T, InputsOf(QUIET), 3, 4);
    Stops(APPLYING, CreditLease(OWING, T, TENANT, TERMS, SHORT), LENT_MORE, InputsOf(QUIET));
  }

  lemma Stops(th: Thread, pool: Pool, books: Books, inputs: nat -> Input)
    ensures Alone(th, pool, false, books, T, inputs, 4, 4) == (th, pool, books)
  {
  }

  const INPUTS := InputsOf(QUIET)

  function DeficitRun(): seq<Event> {
    [Launch(0, CFG, false)] + (CheckRun() + ([Begin(0, SETTLING)] + (Steps(0, INPUTS, 0, 4) + [Step(0, INPUTS(4))])))
  }

  const LAUNCHED := Fleet(T, EMPTY, map[0 := Up(EmptyPool(CFG), false)], map[])

  lemma AfterLaunch()
    ensures After(ColdStart(T), [Launch(0, CFG, false)]) == LAUNCHED
  {
    hide After, EmptyPool;
    OneEvent(ColdStart(T), Launch(0, CFG, false), Slot(Tpm, K));
  }

  lemma AfterCheck()
    ensures After(LAUNCHED, CheckRun()) == Scene(LEASED, LENT, Idle)
  {
    hide After, Steps, L.CheckFast, EmptyPool;
    FirstCheck();
    FirstMiss();
    CheckIsARun(LAUNCHED, 0, 0, QUIET, TENANT, TERMS, COST);
  }

  lemma AfterBegin()
    ensures After(Scene(LEASED, LENT, Idle), [Begin(0, SETTLING)]) == Scene(LEASED, LENT, SETTLING)
  {
    hide After, Next;
    OneEvent(Scene(LEASED, LENT, Idle), Begin(0, SETTLING), Slot(Tpm, K));
    Begins(LEASED, LENT, SETTLING);
  }

  lemma Begins(pool: Pool, books: Books, start: Thread)
    requires IsStart(start)
    ensures Next(Scene(pool, books, Idle), Begin(0, start)) == Scene(pool, books, start)
  {
    hide StoreStep, PoolStep;
  }

  const CREDITED := CreditLease(OWING, T, TENANT, TERMS, SHORT)

  lemma AfterFourSteps()
    ensures After(Scene(LEASED, LENT, SETTLING), Steps(0, INPUTS, 0, 4)) == Scene(CREDITED, LENT_MORE, APPLYING)
  {
    hide After, Steps, Alone, CreditLease;
    UpToApplying();
    AloneIsARun(Scene(LEASED, LENT, SETTLING), 0, 0, INPUTS, 0, 4);
  }

  lemma GrantIsApplied()
    ensures AppliedGrant(CREDITED, T, "a", false, SHORT, Slot(Tpm, K)) == 100
  {
    hide BucketKey;
  }

  lemma ApplyingIsASurplus()
    ensures Charge(Scene(CREDITED, LENT_MORE, APPLYING), Step(0, INPUTS(4)), Slot(Tpm, K)).surplus == 100
  {
    hide AppliedGrant, StaleBalance, CreditLease;
    GrantIsApplied();
  }

  lemma ColdIsSound()
    ensures SoundFleet(ColdStart(T)) && Assets(ColdStart(T), Slot(Tpm, K)) == 0
  {
  }

  /** The ledger does not close without the surplus: a run of one check and one settlement after which the
      fleet holds more tokens than were ever borrowed. */
  lemma LedgerNeedsSurplus()
    ensures var f, slot := ColdStart(T), Slot(Tpm, K);
            var c := Total(f, DeficitRun(), slot);
            Assets(f, slot) + c.borrowed < Assets(After(f, DeficitRun()), slot) + c.returned + c.lapsed + c.gone +
              c.dropped
  {
    hide After, Total, Assets, Charge, SoundFleet, Next, Steps, CheckRun;
    var f0, slot := ColdStart(T), Slot(Tpm, K);
    var r0, r1, r2, r3, r4 := [Launch(0, CFG, false)], CheckRun(), [Begin(0, SETTLING)], Steps(0, INPUTS, 0, 4),
      [Step(0, INPUTS(4))];
    var f1, f2, f3, f4 := LAUNCHED, Scene(LEASED, LENT, Idle), Scene(LEASED, LENT, SETTLING),
      Scene(CREDITED, LENT_MORE, APPLYING);
    ColdIsSound();
    AfterLaunch();
    AfterCheck();
    AfterBegin();
    AfterFourSteps();
    ApplyingIsASurplus();
    ExactLedger(f0, r0, slot);
    ExactLedger(f1, r1, slot);
    ExactLedger(f2, r2, slot);
    RunsAdd(f3, r3, r4, slot);
    RunsAdd(f2, r2, r3 + r4, slot);
    RunsAdd(f1, r1, r2 + (r3 + r4), slot);
    RunsAdd(f0, r0, r1 + (r2 + (r3 + r4)), slot);
    SurplusGrows(f0, r0, slot);
    SurplusGrows(f1, r1, slot);
    SurplusGrows(f2, r2, slot);
    SurplusGrows(f3, r3, slot);
    OneEvent(f4, r4[0], slot);
    ExactLedger(f0, DeficitRun(), slot);
  }

  // ----- refusals in a row

  const SLOW := Amounts(60, 60, 0, 0)
  const DRAINED: Books := Shelves(map[K := Cell(0, T)], map[K := Cell(30 * UNIT, T)], map[], map[], map[])

  const BOTH := Amounts(1, 60, 0, 0)

  lemma RefusedFor(nowMs: int)
    requires nowMs == T || nowMs == T + 1000
    ensures var reply := Check(DRAINED, nowMs, TENANT, SLOW, BOTH, "a").1;
            Refuses(reply) &&
            if nowMs == T then reply.value.limitType == On(Rpm) && reply.value.retryMs == 1000
              else reply.value.limitType == On(Tpm)
  {
    hide BucketKey, LoadBucket;
    RequestWait(nowMs);
    TokenWait(nowMs);
  }

  lemma RequestWait(nowMs: int)
    requires nowMs == T || nowMs == T + 1000
    ensures var out := TryConsume(LoadBucket(DRAINED.rpm, K, 60, nowMs), nowMs, 1).1;
            if nowMs == T then out == Outcome(false, 0, 1000) else out == Outcome(true, 0, 0)
  {
    hide BucketKey;
  }

  lemma TokenWait(nowMs: int)
    requires nowMs == T || nowMs == T + 1000
    ensures TryConsume(LoadBucket(DRAINED.tpm, K, 60, nowMs), nowMs, 60).1 ==
            if nowMs == T then Outcome(false, 30, 30_000) else Outcome(false, 31, 29_000)
  {
    hide BucketKey;
  }

  /** The bound on refusals in a row is reached: a request that fits its limits is refused, waits as it was
      told, and is refused a second time. */
  lemma RefusalBoundIsReached()
    ensures WrittenBy(DRAINED, T) && Fits(SLOW, BOTH) && !Split(SLOW)
    ensures RefusedThroughout(DRAINED, [T, T + 1000], TENANT, SLOW, BOTH, "a")
  {
    hide Check, LoadBucket, TryConsume;
    RefusedFor(T);
    RefusedFor(T + 1000);
    RefusalNamesFirst(DRAINED, T, TENANT, SLOW, BOTH, "a");
    var later := [T + 1000];
    assert later[1..] == [] && [T, T + 1000][1..] == later;
    assert RefusedThroughout(DRAINED, later, TENANT, SLOW, BOTH, "a");
    assert Purged(DRAINED, T) == DRAINED by {
      assert Unexpired(map[], T) == map[];
    }
  }

  const SLOW_SPLIT := Amounts(60, 0, 60, 60)
  const EACH := Amounts(1, 0, 60, 60)
  const DRAINED_SPLIT: Books :=
    Shelves(map[K := Cell(0, T)], map[], map[K := Cell(57 * UNIT, T)], map[K := Cell(30 * UNIT, T)], map[])

  lemma SplitWaits(nowMs: int)
    requires nowMs == T || nowMs == T + 1000 || nowMs == T + 3000
    ensures TryConsume(LoadBucket(DRAINED_SPLIT.rpm, K, 60, nowMs), nowMs, 1).1 ==
            if nowMs == T then Outcome(false, 0, 1000) else Outcome(true, (nowMs - T) / 1000 - 1, 0)
    ensures TryConsume(LoadBucket(DRAINED_SPLIT.itpm, K, 60, nowMs), nowMs, 60).1 ==
            if nowMs == T then Outcome(false, 57, 3000)
            else if nowMs == T + 1000 then Outcome(false, 58, 2000) else Outcome(true, 0, 0)
    ensures TryConsume(LoadBucket(DRAINED_SPLIT.otpm, K, 60, nowMs), nowMs, 60).1 ==
            if nowMs == T then Outcome(false, 30, 30_000)
            else if nowMs == T + 1000 then Outcome(false, 31, 29_000) else Outcome(false, 33, 27_000)
  {
    hide BucketKey;
  }

  lemma SplitRefusedFor(nowMs: int)
    requires nowMs == T || nowMs == T + 1000 || nowMs == T + 3000
    ensures var reply := Check(DRAINED_SPLIT, nowMs, TENANT, SLOW_SPLIT, EACH, "a").1;
            Refuses(reply) &&
            reply.value.limitType == On(if nowMs == T then Rpm else if nowMs == T + 1000 then Itpm else Otpm) &&
            reply.value.retryMs == if nowMs == T then 1000 else if nowMs == T + 1000 then 2000 else 27_000
  {
    hide BucketKey, LoadBucket, TryConsume;
    SplitWaits(nowMs);
  }

  /** In split mode it is reached with three refusals, one for each axis. */
  lemma SplitRefusalBoundIsReached()
    ensures WrittenBy(DRAINED_SPLIT, T) && Fits(SLOW_SPLIT, EACH) && Split(SLOW_SPLIT)
    ensures RefusedThroughout(DRAINED_SPLIT, [T, T + 1000, T + 3000], TENANT, SLOW_SPLIT, EACH, "a")
  {
    hide Check, LoadBucket, TryConsume;
    SplitRefusedFor(T);
    SplitRefusedFor(T + 1000);
    SplitRefusedFor(T + 3000);
    RefusalNamesFirst(DRAINED_SPLIT, T, TENANT, SLOW_SPLIT, EACH, "a");
    RefusalNamesFirst(DRAINED_SPLIT, T + 1000, TENANT, SLOW_SPLIT, EACH, "a");
    var last, later := [T + 3000], [T + 1000, T + 3000];
    assert last[1..] == [] && later[1..] == last && [T, T + 1000, T + 3000][1..] == later;
    forall t: int
      ensures Purged(DRAINED_SPLIT, t) == DRAINED_SPLIT
    {
      assert Unexpired(map[], t) == map[];
    }
    assert RefusedThroughout(DRAINED_SPLIT, last, TENANT, SLOW_SPLIT, EACH, "a");
    assert RefusedThroughout(DRAINED_SPLIT, later, TENANT, SLOW_SPLIT, EACH, "a");
  }

  const WANTED := BorrowSpec(Amounts(0, 60, 0, 0), ZERO)

  lemma DrainedLevels()
    ensures LoadBucket(DRAINED.rpm, K, 60, T) == State(0, T, 60) &&
            LoadBucket(DRAINED.tpm, K, 60, T) == State(30 * UNIT, T, 60)
  {
    hide BucketKey;
  }

  lemma ShortOfTokens()
    ensures var reply := Borrow(DRAINED, T, TENANT, SLOW, WANTED).1;
            reply.Ok? && !reply.value.allowed && reply.value.limitType == On(Tpm) && reply.value.retryMs == 30_000
  {
    hide BucketKey, LoadBucket, TryConsume;
    DrainedLevels();
    TokenWait(T);
  }

  /** The promise about remembered refusals is not empty: a refusal with thirty seconds to wait is repeated
      twenty-nine seconds later, by that promise. */
  lemma RefusalIsRemembered()
    ensures var reply := Borrow(DRAINED, T + 29_000, TENANT, SLOW, WANTED).1; reply.Ok? ==> !reply.value.allowed
  {
    hide Borrow;
    ShortOfTokens();
    RefusalCanBeRemembered(DRAINED, T, TENANT, SLOW, WANTED, [], T + 29_000, SLOW, WANTED);
  }
}
