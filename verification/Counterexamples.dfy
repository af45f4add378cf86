/** Where the documents promise more than the code keeps: a concrete input for each, beside the condition under
    which the promise does hold (here or in the lemma named). */
module Counterexamples {
  import opened Quota
  import opened Bucket
  import opened BucketLaws
  import opened StoreSpec
  import opened StoreLedger
  import opened Waiting
  import opened PoolSpec
  import opened Witnesses
  import L = LimiterSpec

  // ----- "unused lease credits are at most pods times chunk" (the condition is LeaseBounds.WithinIff)

  const HALF := Amounts(1, 400, 0, 0)
  const SECOND := L.Env((_: nat) => T, T, NoFault, (_: nat) => Some("b"))

  const ONE_OUT := Pool(CFG, map[K := Lease(Amounts(4, 100, 0, 0), TERMS, T + 2000)],
                        map["a" := Reservation(TENANT, false, HALF, TERMS, ZERO, Pending, NO_DECISION,
                                               T + RESERVATION_TTL)], map[])

  lemma OneBorrow()
    ensures var (b, reply) := Borrow(EMPTY, T, TENANT, TERMS, BorrowSpec(HALF, CFG.chunk));
            b == LENT && reply.Ok? && reply.value.allowed && reply.value.got == Amounts(5, 500, 0, 0)
  {
    hide BucketKey;
  }

  lemma AnotherBorrow()
    ensures var reply := Borrow(LENT, T, TENANT, TERMS, BorrowSpec(HALF, CFG.chunk)).1;
            reply.Ok? && reply.value.allowed && reply.value.got == Amounts(5, 500, 0, 0)
  {
    hide BucketKey;
  }

  lemma Misses()
    ensures var p := EmptyPool(CFG);
            p.cfg == CFG && DenyGet(p, T, TENANT) == (p, None) && TryDebit(p, T, TENANT, TERMS, HALF, "a") == (p, None)
    ensures DenyGet(ONE_OUT, T, TENANT) == (ONE_OUT, None) &&
            TryDebit(ONE_OUT, T, TENANT, TERMS, HALF, "b") == (ONE_OUT, None)
  {
    hide BucketKey, EmptyPool, Normalized;
    FreshPool();
    assert Unexpired(map[], T) == map[];
    assert Unexpired(ONE_OUT.res, T) == ONE_OUT.res;
  }

  lemma FirstHits()
    ensures var (q, decision) := TryDebit(FILLED, T, TENANT, TERMS, HALF, "a");
            q == ONE_OUT && decision.Some?
  {
    hide BucketKey, Swept, PurgedPool;
    FilledIsLive();
  }

  const TOPPED_UP := Pool(CFG, map[K := Lease(Amounts(9, 600, 0, 0), TERMS, T + 2000)], ONE_OUT.res, map[])

  lemma SecondCredit()
    ensures CreditLease(ONE_OUT, T, TENANT, TERMS, Amounts(5, 500, 0, 0)) == TOPPED_UP
  {
    hide BucketKey;
  }

  lemma ToppedUpIsLive()
    ensures Swept(PurgedPool(TOPPED_UP, T), K, T) == TOPPED_UP
  {
    hide BucketKey;
    assert Unexpired(ONE_OUT.res, T) == ONE_OUT.res;
  }

  lemma SecondHits()
    ensures var (q, decision) := TryDebit(TOPPED_UP, T, TENANT, TERMS, HALF, "b");
            decision.Some? && q.cfg == CFG && K in q.leases && q.leases[K].balance == Amounts(8, 200, 0, 0)
  {
    hide BucketKey, Swept, PurgedPool;
    ToppedUpIsLive();
  }

  /** One pod with a request chunk of 5 holds 8 unused requests after two admitted requests: the second was
      only short of tokens, and borrowed a chunk of requests as well. */
  lemma LeaseExceedsChunk()
    ensures var (p1, b1, d1) := L.CheckFast(EmptyPool(CFG), EMPTY, QUIET, false, TENANT, TERMS, HALF);
            var (p2, _, d2) := L.CheckFast(p1, b1, SECOND, false, TENANT, TERMS, HALF);
            p2.cfg.chunk.rpm == 5 && K in p2.leases && p2.leases[K].balance.rpm == 8
  {
    hide Borrow, DenyGet, TryDebit, CreditLease, EmptyPool;
    OneBorrow();
    AnotherBorrow();
    Misses();
    FirstCredit();
    FirstHits();
    SecondCredit();
    SecondHits();
  }

  // Refunds and settlements overfill a lease as well.

  const FIVE := Amounts(5, 500, 0, 0)
  const TAKEN := Reservation(TENANT, false, FIVE, TERMS, ZERO, Pending, NO_DECISION, T + RESERVATION_TTL)
  const GIVEN_BACK := TAKEN.(status := Refunded)

  function Holding(balance: Amounts, res: map<string, Reservation>): Pool {
    Pool(CFG, map[K := Lease(balance, TERMS, T + 2000)], res, map[])
  }

  lemma HoldingKeeps(balance: Amounts, res: map<string, Reservation>)
    requires forall id | id in res :: res[id].expiresAt >= T
    ensures PurgedPool(Holding(balance, res), T) == Holding(balance, res)
    ensures Swept(Holding(balance, res), K, T) == Holding(balance, res)
  {
    assert Unexpired(res, T) == res;
  }

  lemma BorrowsOfFive()
    ensures var (b, reply) := Borrow(EMPTY, T, TENANT, TERMS, BorrowSpec(FIVE, CFG.chunk));
            b == LENT && reply.Ok? && reply.value.allowed && reply.value.got == FIVE
  {
    hide BucketKey;
  }

  lemma MoreBorrowsOfFive()
    ensures var reply := Borrow(LENT, T, TENANT, TERMS, BorrowSpec(FIVE, CFG.chunk)).1;
            reply.Ok? && reply.value.allowed && reply.value.got == FIVE
  {
    hide BucketKey;
  }

  /** A lease with exactly the cost is debited to nothing. */
  lemma TakesAll(res: map<string, Reservation>, id: string)
    requires forall other | other in res :: res[other].expiresAt >= T
    ensures var (q, decision) := TryDebit(Holding(FIVE, res), T, TENANT, TERMS, FIVE, id);
            q == Holding(ZERO, res[id := TAKEN]) && decision.Some?
  {
    hide BucketKey, Swept, PurgedPool;
    HoldingKeeps(FIVE, res);
  }

  /** An empty one is not, and nothing is remembered against the key. */
  lemma TakesNone(res: map<string, Reservation>, id: string)
    requires forall other | other in res :: res[other].expiresAt >= T
    ensures TryDebit(Holding(ZERO, res), T, TENANT, TERMS, FIVE, id) == (Holding(ZERO, res), None)
    ensures DenyGet(Holding(ZERO, res), T, TENANT) == (Holding(ZERO, res), None)
    ensures CreditLease(Holding(ZERO, res), T, TENANT, TERMS, FIVE) == Holding(FIVE, res)
  {
    hide BucketKey, Swept, PurgedPool;
    HoldingKeeps(ZERO, res);
  }

  lemma FreshTakesNone()
    ensures var p := EmptyPool(CFG);
            p.cfg == CFG && DenyGet(p, T, TENANT) == (p, None) &&
              TryDebit(p, T, TENANT, TERMS, FIVE, "a") == (p, None) &&
            CreditLease(p, T, TENANT, TERMS, FIVE) == Holding(FIVE, map[])
  {
    hide BucketKey, EmptyPool, Normalized;
    FreshPool();
    FirstCredit();
    assert Unexpired(map[], T) == map[];
  }

  lemma Refunds(balance: Amounts, res: map<string, Reservation>, id: string)
    requires (forall other | other in res :: res[other].expiresAt >= T) && id in res && res[id] == TAKEN
    ensures GetReservation(Holding(balance, res), T, id) == (Holding(balance, res), Some(TAKEN))
    ensures RefundLocal(Holding(balance, res), T, id).0 == Holding(balance.Plus(FIVE), res[id := GIVEN_BACK])
  {
    hide BucketKey, Swept, PurgedPool;
    HoldingKeeps(balance, res);
  }

  lemma RefundsFast(balance: Amounts, res: map<string, Reservation>, books: Books, id: string)
    requires (forall other | other in res :: res[other].expiresAt >= T) && id in res && res[id] == TAKEN
    ensures var r := L.RefundFast(Holding(balance, res), books, QUIET, id);
            r.0 == Holding(balance.Plus(FIVE), res[id := GIVEN_BACK]) && r.1 == books
  {
    hide RefundLocal, GetReservation, Holding;
    Refunds(balance, res, id);
  }

  lemma TwoChecks()
    ensures var (p1, b1, d1) := L.CheckFast(EmptyPool(CFG), EMPTY, QUIET, false, TENANT, TERMS, FIVE);
            var (p2, _, d2) := L.CheckFast(p1, b1, SECOND, false, TENANT, TERMS, FIVE);
            p2 == Holding(ZERO, map["a" := TAKEN, "b" := TAKEN])
  {
    hide BucketKey, Borrow, DenyGet, TryDebit, CreditLease, EmptyPool, Holding;
    BorrowsOfFive();
    FreshTakesNone();
    TakesAll(map[], "a");
    var one: map<string, Reservation> := map["a" := TAKEN];
    assert map[]["a" := TAKEN] == one;
    assert Holding(ZERO, one).cfg == CFG by { HoldingHasConfig(ZERO, one); }
    MoreBorrowsOfFive();
    TakesNone(one, "b");
    TakesAll(one, "b");
    assert one["b" := TAKEN] == map["a" := TAKEN, "b" := TAKEN];
  }

  lemma HoldingHasConfig(balance: Amounts, res: map<string, Reservation>)
    ensures var p := Holding(balance, res); p.cfg == CFG && K in p.leases && p.leases[K].balance == balance
  {
    hide BucketKey;
  }

  lemma TwoRefunds(books: Books)
    ensures var two: map<string, Reservation> := map["a" := TAKEN, "b" := TAKEN];
            var (p3, b3, _) := L.RefundFast(Holding(ZERO, two), books, QUIET, "a");
            L.RefundFast(p3, b3, QUIET, "b").0 ==
              Holding(Amounts(10, 1000, 0, 0), two["a" := GIVEN_BACK]["b" := GIVEN_BACK])
  {
    hide L.RefundFast, BucketKey, Holding;
    var two: map<string, Reservation> := map["a" := TAKEN, "b" := TAKEN];
    RefundsFast(ZERO, two, books, "a");
    RefundsFast(FIVE, two["a" := GIVEN_BACK], books, "b");
  }

  /** Two requests for a whole chunk each leave nothing unused; refunding both leaves two chunks on the one pod. */
  lemma RefundsExceedChunk()
    ensures var (p1, b1, d1) := L.CheckFast(EmptyPool(CFG), EMPTY, QUIET, false, TENANT, TERMS, FIVE);
            var (p2, b2, d2) := L.CheckFast(p1, b1, SECOND, false, TENANT, TERMS, FIVE);
            var (p3, b3, _) := L.RefundFast(p2, b2, QUIET, "a");
            var (p4, _, _) := L.RefundFast(p3, b3, QUIET, "b");
            CFG.chunk == Amounts(5, 500, 500, 500) &&
            K in p2.leases && p2.leases[K].balance == ZERO && K in p4.leases &&
              p4.leases[K].balance == Amounts(10, 1000, 0, 0)
  {
    hide L.CheckFast, L.RefundFast, BucketKey, Holding;
    TwoChecks();
    var p1, b1 := L.CheckFast(EmptyPool(CFG), EMPTY, QUIET, false, TENANT, TERMS, FIVE).0,
                  L.CheckFast(EmptyPool(CFG), EMPTY, QUIET, false, TENANT, TERMS, FIVE).1;
    var two: map<string, Reservation> := map["a" := TAKEN, "b" := TAKEN];
    TwoRefunds(L.CheckFast(p1, b1, SECOND, false, TENANT, TERMS, FIVE).1);
    HoldingHasConfig(ZERO, two);
    HoldingHasConfig(Amounts(10, 1000, 0, 0), two["a" := GIVEN_BACK]["b" := GIVEN_BACK]);
  }

  // ----- "when both are exhausted, Retry-After is the longer wait" (the condition is Waiting.FirstWaitSufficesIff)

  /** Both buckets are short, by one second and by thirty; the refusal says one second, and after that second
      the request is refused again. */
  lemma RetryAfterIsTheFirstWait()
    ensures var reply := Check(DRAINED, T, TENANT, SLOW, BOTH, "a").1;
            Refuses(reply) && reply.value.retryMs == 1000 &&
            TryConsume(DRAINED.Load(Tpm, K, SLOW, T), T, 60).1.retryMs == 30_000 &&
            Refuses(Check(DRAINED, T + 1000, TENANT, SLOW, BOTH, "a").1)
  {
    hide Check, LoadBucket, TryConsume;
    RefusedFor(T);
    RefusedFor(T + 1000);
    TokenWait(T);
  }

  // ----- settling beyond the reservation is not monotone in the level

  /** The level is off by less than one token. */
  lemma DebitFloorIsNearlyMonotone(low: State, high: State, nowMs: int, amount: nat)
    requires Fresh(low, nowMs) && Fresh(high, nowMs) && 0 <= low.tokens <= high.tokens
    ensures DebitFloor(low, nowMs, amount).0.tokens < DebitFloor(high, nowMs, amount).0.tokens + UNIT
  {
  }

  /** It keeps the order exactly when the lower level covers the debit, or its part of a token is no more
      than what the higher level ends with. */
  lemma DebitFloorIsMonotoneIff(low: State, high: State, nowMs: int, amount: nat)
    requires Fresh(low, nowMs) && Fresh(high, nowMs) && 0 <= low.tokens <= high.tokens && amount > 0
    ensures DebitFloor(low, nowMs, amount).0.tokens <= DebitFloor(high, nowMs, amount).0.tokens <==>
            low.tokens >= amount * UNIT ||
            low.tokens % UNIT <=
              (if high.tokens >= amount * UNIT then high.tokens - amount * UNIT else high.tokens % UNIT)
  {
  }

  /** 2.9 tokens less 3 leaves 0.9; 3 tokens less 3 leaves none. */
  lemma DebitFloorIsNotMonotone()
    ensures DebitFloor(State(174_000, T, 10), T, 3) == (State(54_000, T, 10), 2, 1)
    ensures DebitFloor(State(180_000, T, 10), T, 3) == (State(0, T, 10), 3, 0)
  {
  }

  // ----- a grant is not taken across a backward clock step with a lowered limit (the condition is
  // LimiterLaws.VerdictIff)

  const AHEAD: Books := Shelves(map[K := Cell(100 * UNIT, T)], map[], map[], map[], map[])

  /** The clock is half a second behind the stored bucket and the limit has dropped from 100 to 90: 95 requests
      are granted, the debit is refused unseen, and a full bucket of 90 is left. */
  lemma GrantNotTaken()
    ensures var limits := Amounts(90, 0, 0, 0);
            var (b, reply) := Borrow(AHEAD, T - 500, TENANT, limits, BorrowSpec(Amounts(95, 0, 0, 0), ZERO));
            reply.Ok? && reply.value.allowed && reply.value.got == Amounts(95, 0, 0, 0) &&
            CellAt(b, Slot(Rpm, K)) == Some(Cell(90 * UNIT, T - 500)) &&
            !Calm(AHEAD.rpm, K, 90, T - 500)
  {
    hide BucketKey;
  }
}
