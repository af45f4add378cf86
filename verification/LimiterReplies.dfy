/** What the limiter's answers mean: a request is told it is admitted exactly when a reservation for it was written,
    a refusal says why and for how long, and settlements and refunds answer what they did. */
module LimiterReplies {
  import opened Quota
  import opened Bucket
  import opened StoreSpec
  import opened StoreLedger
  import opened StoreLaws
  import opened PoolSpec
  import opened PoolLedger
  import opened FleetLedger
  import opened LeaseBounds
  import opened LimiterLaws
  import opened Replies
  import opened PoolReplies
  import L = LimiterSpec

  /** A refusal made up by the limiter: why, for how long, and nothing else but the limits. */
  predicate Refusal(d: Decision, limits: Amounts, why: LimitType, retryMs: int) {
    !d.allowed && d.limitType == why && d.retryMs == retryMs && d.reservationId == "" &&
    d.remaining == ZERO && d.overshoot == ZERO && Shows(d.limit, limits, limits)
  }

  lemma DenialIsRefusal(limits: Amounts, why: LimitType, retryMs: int)
    ensures Refusal(L.Denial(limits, why, retryMs), limits, why, retryMs)
  {
  }

  function NoLess(cost: Amounts): Amounts {
    Amounts(Max(0, cost.rpm), Max(0, cost.tpm), Max(0, cost.itpm), Max(0, cost.otpm))
  }

  // ----- a fast check

  /** The pool has a new pending reservation for the request, and no other record has changed. */
  predicate Wrote(p: Pool, q: Pool, key: Key, limits: Amounts, cost: Amounts, id: string) {
    id in q.res && q.res[id].status == Pending && q.res[id].key == key && q.res[id].limits == limits &&
    q.res[id].reserved == NoLess(cost) &&
    forall other | other in q.res && other != id :: other in p.res && q.res[other] == p.res[other]
  }

  predicate WroteNothing(p: Pool, q: Pool) {
    forall id | id in q.res :: id in p.res && q.res[id] == p.res[id]
  }

  /** An admission from the lease: the reservation is written and what is left in the lease is reported. */
  predicate Admission(p: Pool, q: Pool, key: Key, limits: Amounts, cost: Amounts, d: Decision) {
    d.allowed && d.limitType == NoLimit && d.retryMs == 0 && d.overshoot == ZERO &&
    Wrote(p, q, key, limits, cost, d.reservationId) && BucketKey(key) in q.leases &&
    Shows(d.remaining, limits, q.leases[BucketKey(key)].balance) && Shows(d.limit, limits, limits)
  }

  /** A fast-path check answers that the request is admitted exactly when it has written a pending reservation for it,
      under the id it answers with, for the cost with nothing below zero; it tells what is left in the lease.  When it
      refuses it has written nothing. */
  predicate AdmitsOrRefuses(p: Pool, q: Pool, env: L.Env, key: Key, limits: Amounts, cost: Amounts, d: Decision) {
    if d.allowed then
      Admission(p, q, key, limits, cost, d) &&
        (env.ids(0) == Some(d.reservationId) || env.ids(1) == Some(d.reservationId))
    else d.reservationId == "" && WroteNothing(p, q)
  }

  lemma DebitAdmits(p0: Pool, p: Pool, nowMs: int, key: Key, limits: Amounts, cost: Amounts, id: string)
    requires WroteNothing(p0, p)
    ensures var (q, decision) := TryDebit(p, nowMs, key, limits, NoLess(cost), id);
            if decision.Some? then Admission(p0, q, key, limits, cost, decision.value) &&
              decision.value.reservationId == id
            else WroteNothing(p0, q)
  {
    hide TryDebit, Live, Shows;
    DebitShows(p, nowMs, key, limits, NoLess(cost), id);
    var (q, decision) := TryDebit(p, nowMs, key, limits, NoLess(cost), id);
    if decision.None? {
      assert OnlyForgets(p, q);
      StillNothing(p0, p, q);
    }
  }

  lemma StillNothing(p0: Pool, p: Pool, q: Pool)
    requires WroteNothing(p0, p) && OnlyForgets(p, q)
    ensures WroteNothing(p0, q)
  {
  }

  lemma ErrorAdmits(p0: Pool, p: Pool, env: L.Env, i: nat, failOpen: bool, key: Key, limits: Amounts, cost: Amounts)
    requires WroteNothing(p0, p)
    ensures var (q, d) := L.OnStoreErrorFast(p, env, i, failOpen, key, limits, NoLess(cost));
            AdmitsOrRefuses(p0, q, env, key, limits, cost, d)
  {
    hide TryDebit, Shows, Admission, Shown;
    DenialIsRefusal(limits, Backend, 1000);
    if failOpen && env.ids(1).Some? {
      var p1 := Has(p, env.clock(i), key, NoLess(cost), limits).0;
      DebitAdmits(p0, p1, env.clock(i + 1), key, limits, cost, env.ids(1).value);
      AdmissionIsAllowed(p0, p1, env.clock(i + 1), key, limits, cost, env.ids(1).value);
    }
  }

  lemma BorrowAdmits(p0: Pool, p: Pool, b: Books, env: L.Env, failOpen: bool, key: Key, limits: Amounts, cost: Amounts,
                     id: string)
    requires WroteNothing(p0, p) && env.ids(0) == Some(id)
    ensures var (q, _, d) := L.CheckByBorrowing(p, b, env, failOpen, key, limits, NoLess(cost), id);
            AdmitsOrRefuses(p0, q, env, key, limits, cost, d)
  {
    hide TryDebit, Shows, Admission, Borrow, L.OnStoreErrorFast, Shown;
    DenialIsRefusal(limits, Backend, 1000);
    var reply := Sent(env.fault, b, Borrow(b, env.storeMs, key, limits, BorrowSpec(NoLess(cost), p.cfg.chunk))).1;
    if reply.Err? {
      ErrorAdmits(p0, p, env, 3, failOpen, key, limits, cost);
    } else if reply.value.allowed {
      var p1 := CreditLease(p, env.clock(3), key, limits, reply.value.got);
      DebitAdmits(p0, p1, env.clock(4), key, limits, cost, id);
      AdmissionIsAllowed(p0, p1, env.clock(4), key, limits, cost, id);
    }
  }

  lemma AdmissionIsAllowed(p0: Pool, p: Pool, nowMs: int, key: Key, limits: Amounts, cost: Amounts, id: string)
    requires WroteNothing(p0, p)
    ensures var decision := TryDebit(p, nowMs, key, limits, NoLess(cost), id).1;
            decision.Some? ==> decision.value.allowed && decision.value.reservationId == id
  {
    hide TryDebit, Live, Shows;
    DebitShows(p, nowMs, key, limits, NoLess(cost), id);
  }

  lemma CheckAdmits(p: Pool, b: Books, env: L.Env, failOpen: bool, key: Key, limits: Amounts, cost: Amounts)
    ensures var (q, _, d) := L.CheckFast(p, b, env, failOpen, key, limits, cost);
            AdmitsOrRefuses(p, q, env, key, limits, cost, d)
  {
    hide TryDebit, Shows, Admission, L.CheckByBorrowing, L.OnStoreErrorFast, Shown;
    assert cost.Clamped() == NoLess(cost);
    var (p1, hit) := DenyGet(p, env.clock(0), key);
    if hit.Some? {
      DenialIsRefusal(limits, hit.value.0, hit.value.1);
    } else if env.ids(0).None? {
      ErrorAdmits(p, p1, env, 1, failOpen, key, limits, cost);
    } else {
      DebitAdmits(p, p1, env.clock(1), key, limits, cost, env.ids(0).value);
      AdmissionIsAllowed(p, p1, env.clock(1), key, limits, cost, env.ids(0).value);
      var (p2, decision) := TryDebit(p1, env.clock(1), key, limits, NoLess(cost), env.ids(0).value);
      if decision.None? {
        BorrowAdmits(p, p2, b, env, failOpen, key, limits, cost, env.ids(0).value);
      }
    }
  }

  /** A key on the deny list is refused without more ado: the reply names the axis of the entry and the time it has
      left,
      and neither the pool nor the store is touched. */
  lemma RememberedRefusal(p: Pool, b: Books, env: L.Env, failOpen: bool, key: Key, limits: Amounts, cost: Amounts)
    requires BucketKey(key) in p.deny && env.clock(0) < p.deny[BucketKey(key)].untilMs
    ensures var entry := p.deny[BucketKey(key)];
            var (q, b', d) := L.CheckFast(p, b, env, failOpen, key, limits, cost);
            q == p && b' == b && Refusal(d, limits, entry.limitType, entry.untilMs - env.clock(0))
  {
    hide TryDebit, L.CheckByBorrowing, L.OnStoreErrorFast;
  }

  /** Whether a check gets past the deny list. */
  predicate NotDenied(p: Pool, key: Key, nowMs: int) {
    BucketKey(key) in p.deny ==> p.deny[BucketKey(key)].untilMs <= nowMs
  }

  lemma StaleEntryGoes(p: Pool, key: Key, nowMs: int)
    requires NotDenied(p, key, nowMs)
    ensures var (q, hit) := DenyGet(p, nowMs, key);
            hit.None? && q == p.(deny := p.deny - {BucketKey(key)})
  {
    if BucketKey(key) !in p.deny {
      assert p.deny - {BucketKey(key)} == p.deny;
    }
  }

  /** A live lease with the cost answers at home: the store is not asked, whatever its state and the network's. */
  lemma LeaseAnswersAlone(p: Pool, b: Books, env: L.Env, failOpen: bool, key: Key, limits: Amounts, cost: Amounts)
    requires NotDenied(p, key, env.clock(0)) && env.ids(0).Some?
    requires Live(p, BucketKey(key), env.clock(1)) && HasCost(p.leases[BucketKey(key)].balance, limits, NoLess(cost))
    ensures var (q, b', d) := L.CheckFast(p, b, env, failOpen, key, limits, cost);
            b' == b && d.allowed && Some(d.reservationId) == env.ids(0) &&
            BucketKey(key) in q.leases &&
            q.leases[BucketKey(key)].balance == LessCost(p.leases[BucketKey(key)].balance, limits, NoLess(cost))
  {
    hide TryDebit, L.CheckByBorrowing, L.OnStoreErrorFast, Shows, LessCost, BucketKey;
    assert cost.Clamped() == NoLess(cost);
    StaleEntryGoes(p, key, env.clock(0));
    DebitShows(DenyGet(p, env.clock(0), key).0, env.clock(1), key, limits, NoLess(cost), env.ids(0).value);
  }

  /** A refused Borrow is passed on with its axis, its wait and the store's counts, and remembered for that wait. */
  lemma StoreRefusal(p: Pool, b: Books, env: L.Env, failOpen: bool, key: Key, limits: Amounts, cost: Amounts,
                     id: string)
    requires 0 < env.storeMs && WrittenBy(b, env.storeMs) && env.fault.NoFault?
    requires var reply := Borrow(b, env.storeMs, key, limits, BorrowSpec(cost, p.cfg.chunk)).1;
             reply.Ok? && !reply.value.allowed
    ensures var br := Borrow(b, env.storeMs, key, limits, BorrowSpec(cost, p.cfg.chunk)).1.value;
            var (q, b', d) := L.CheckByBorrowing(p, b, env, failOpen, key, limits, cost, id);
            var k := BucketKey(key);
            !d.allowed && d.limitType == br.limitType && d.retryMs == br.retryMs && d.reservationId == "" &&
            d.overshoot == ZERO && Shows(d.remaining, limits, LeftIn(b, k, limits, env.storeMs)) &&
            Shows(d.limit, limits, limits) &&
            q == p.(deny := p.deny[k := DenyEntry(env.clock(3) + br.retryMs, br.limitType)]) && b' == b
  {
    hide Borrow, TryDebit, L.OnStoreErrorFast, LeftIn, BucketKey, Avail;
    var spec := BorrowSpec(cost, p.cfg.chunk);
    BorrowShows(b, env.storeMs, key, limits, spec);
    RefusedChangesNothing(b, env.storeMs, key, limits, spec);
    RefusedBorrowWaits(b, env.storeMs, key, limits, spec);
  }

  /** When the store cannot be asked, the request is admitted exactly when the limiter fails open, another id can be
      made, and the lease has the cost both times it is looked at; otherwise it is refused for a second. */
  lemma StoreErrorAnswer(p: Pool, env: L.Env, i: nat, failOpen: bool, key: Key, limits: Amounts, cost: Amounts)
    ensures var (q, d) := L.OnStoreErrorFast(p, env, i, failOpen, key, limits, cost);
            var k := BucketKey(key);
            (d.allowed <==> failOpen && env.ids(1).Some? && Live(p, k, env.clock(i)) && Live(p, k, env.clock(i + 1)) &&
                            HasCost(p.leases[k].balance, limits, cost)) &&
            (!d.allowed ==> Refusal(d, limits, Backend, 1000) && OnlyForgets(p, q))
  {
    hide TryDebit, BucketKey, Shows;
    DenialIsRefusal(limits, Backend, 1000);
    HasForgets(p, env.clock(i), key, cost, limits);
    if failOpen && env.ids(1).Some? {
      var p1 := Has(p, env.clock(i), key, cost, limits).0;
      DebitShows(p1, env.clock(i + 1), key, limits, cost, env.ids(1).value);
      var (p2, decision) := TryDebit(p1, env.clock(i + 1), key, limits, cost, env.ids(1).value);
      if decision.None? {
        ForgetsTwice(p, p1, p2);
      }
    }
  }

  lemma HasForgets(p: Pool, nowMs: int, key: Key, cost: Amounts, limits: Amounts)
    ensures OnlyForgets(p, Has(p, nowMs, key, cost, limits).0) && OnlyForgets(p, p)
  {
  }

  lemma ForgetsTwice(p: Pool, p1: Pool, p2: Pool)
    requires OnlyForgets(p, p1) && OnlyForgets(p1, p2)
    ensures OnlyForgets(p, p2)
  {
  }

  /** A grant that is gone before it can be debited: the request is refused for a second, and so is the key. */
  lemma LostGrant(p: Pool, b: Books, env: L.Env, failOpen: bool, key: Key, limits: Amounts, cost: Amounts, id: string)
    requires Sound(p) && cost.NonNegative() && env.fault.NoFault?
    requires var reply := Borrow(b, env.storeMs, key, limits, BorrowSpec(cost, p.cfg.chunk)).1;
             reply.Ok? && reply.value.allowed
    requires env.clock(4) >= env.clock(3) + p.cfg.leaseTtlMs
    ensures var (q, b', d) := L.CheckByBorrowing(p, b, env, failOpen, key, limits, cost, id);
            Refusal(d, limits, Backend, 1000) && BucketKey(key) in q.deny &&
            q.deny[BucketKey(key)] == DenyEntry(env.clock(5) + 1000, Backend) && BucketKey(key) !in q.leases &&
            b' == Borrow(b, env.storeMs, key, limits, BorrowSpec(cost, p.cfg.chunk)).0
  {
    hide Borrow, Sound, BucketKey, Covers, Shows;
    DenialIsRefusal(limits, Backend, 1000);
    GrantCovers(b, env.storeMs, key, limits, BorrowSpec(cost, p.cfg.chunk));
    AllowedBorrowAdmits(p, b, env, failOpen, key, limits, cost, id);
  }

  // ----- the whole fast check

  /** The store lends what a fast check asks it for. */
  predicate Lent(p: Pool, b: Books, env: L.Env, key: Key, limits: Amounts, cost: Amounts) {
    var reply := Borrow(b, env.storeMs, key, limits, BorrowSpec(NoLess(cost), p.cfg.chunk)).1;
    env.fault.NoFault? && reply.Ok? && reply.value.allowed
  }

  predicate LeaseHas(p: Pool, nowMs: int, key: Key, limits: Amounts, cost: Amounts) {
    Live(p, BucketKey(key), nowMs) && HasCost(p.leases[BucketKey(key)].balance, limits, NoLess(cost))
  }

  /** When a fast check admits, from end to end.  It does not matter whether the limiter fails open once a debit has
      been tried: what the lease did not have then it does not have after a store error, unless somebody else brings
      it. */
  lemma AdmittedIff(p: Pool, b: Books, env: L.Env, failOpen: bool, key: Key, limits: Amounts, cost: Amounts)
    requires Sound(p)
    ensures L.CheckFast(p, b, env, failOpen, key, limits, cost).2.allowed <==>
            NotDenied(p, key, env.clock(0)) &&
            if env.ids(0).None? then
              failOpen && env.ids(1).Some? && LeaseHas(p, env.clock(1), key, limits, cost) &&
              LeaseHas(p, env.clock(2), key, limits, cost)
            else
              LeaseHas(p, env.clock(1), key, limits, cost) ||
              (Lent(p, b, env, key, limits, cost) && env.clock(4) < env.clock(3) + p.cfg.leaseTtlMs)
  {
    hide TryDebit, L.CheckByBorrowing, L.OnStoreErrorFast, Shows, HasCost, BucketKey, Borrow, Shown, Sound;
    assert cost.Clamped() == NoLess(cost);
    if NotDenied(p, key, env.clock(0)) {
      StaleEntryGoes(p, key, env.clock(0));
      var p1 := DenyGet(p, env.clock(0), key).0;
      SoundIgnoresDeny(p, p1);
      if env.ids(0).None? {
        StoreErrorAnswer(p1, env, 1, failOpen, key, limits, NoLess(cost));
      } else {
        var id := env.ids(0).value;
        DebitShows(p1, env.clock(1), key, limits, NoLess(cost), id);
        DebitStock(p1, env.clock(1), key, limits, NoLess(cost), id, Slot(Rpm, ""));
        var (p2, decision) := TryDebit(p1, env.clock(1), key, limits, NoLess(cost), id);
        if decision.None? {
          AfterMiss(p1, b, env, failOpen, key, limits, cost, id);
        }
      }
    }
  }

  lemma SoundIgnoresDeny(p: Pool, q: Pool)
    requires Sound(p) && q.leases == p.leases && q.res == p.res
    ensures Sound(q)
  {
  }

  /** What a debit did not find is not there later either. */
  lemma MissedStaysMissed(p: Pool, nowMs: int, key: Key, limits: Amounts, cost: Amounts, id: string, laterMs: int)
    requires TryDebit(p, nowMs, key, limits, NoLess(cost), id).1.None?
    ensures !LeaseHas(TryDebit(p, nowMs, key, limits, NoLess(cost), id).0, laterMs, key, limits, cost)
  {
    hide BucketKey;
  }

  lemma AfterMiss(p: Pool, b: Books, env: L.Env, failOpen: bool, key: Key, limits: Amounts, cost: Amounts, id: string)
    requires TryDebit(p, env.clock(1), key, limits, NoLess(cost), id).1.None?
    requires Sound(TryDebit(p, env.clock(1), key, limits, NoLess(cost), id).0)
    ensures var q := TryDebit(p, env.clock(1), key, limits, NoLess(cost), id).0;
            var d := L.CheckByBorrowing(q, b, env, failOpen, key, limits, NoLess(cost), id).2;
            q.cfg == p.cfg &&
            (d.allowed <==> Lent(p, b, env, key, limits, cost) && env.clock(4) < env.clock(3) + p.cfg.leaseTtlMs) &&
            (!d.allowed && (env.fault.NoFault? ==> Borrow(b, env.storeMs, key, limits,
                                                          BorrowSpec(NoLess(cost), p.cfg.chunk)).1.Err?) ==>
               Refusal(d, limits, Backend, 1000))
  {
    hide Borrow, TryDebit, L.OnStoreErrorFast, Shown, HasCost, BucketKey, Shows, Sound, CreditLease, Live;
    DebitShows(p, env.clock(1), key, limits, NoLess(cost), id);
    var q := TryDebit(p, env.clock(1), key, limits, NoLess(cost), id).0;
    var reply := Borrow(b, env.storeMs, key, limits, BorrowSpec(NoLess(cost), q.cfg.chunk)).1;
    if !env.fault.NoFault? || reply.Err? {
      MissedStaysMissed(p, env.clock(1), key, limits, cost, id, env.clock(3));
      StoreErrorAnswer(q, env, 3, failOpen, key, limits, NoLess(cost));
    } else if reply.value.allowed {
      AllowedBorrowAdmits(q, b, env, failOpen, key, limits, NoLess(cost), id);
    }
  }

  /** Why a fast check refuses: the deny list, the axis and wait of the store's refusal, or the backend for a second. */
  lemma RefusedBecause(p: Pool, b: Books, env: L.Env, failOpen: bool, key: Key, limits: Amounts, cost: Amounts)
    requires Sound(p) && 0 < env.storeMs && WrittenBy(b, env.storeMs)
    requires !L.CheckFast(p, b, env, failOpen, key, limits, cost).2.allowed
    ensures var d := L.CheckFast(p, b, env, failOpen, key, limits, cost).2;
            var k := BucketKey(key);
            var reply := Borrow(b, env.storeMs, key, limits, BorrowSpec(NoLess(cost), p.cfg.chunk)).1;
            if !NotDenied(p, key, env.clock(0)) then
              Refusal(d, limits, p.deny[k].limitType, p.deny[k].untilMs - env.clock(0))
            else if env.ids(0).None? || !env.fault.NoFault? || reply.Err? || reply.value.allowed then
              Refusal(d, limits, Backend, 1000)
            else
              d.limitType == reply.value.limitType && d.retryMs == reply.value.retryMs && d.reservationId == "" &&
              d.overshoot == ZERO && Shows(d.remaining, limits, LeftIn(b, k, limits, env.storeMs)) &&
              Shows(d.limit, limits, limits)
  {
    hide TryDebit, L.CheckByBorrowing, L.OnStoreErrorFast, Shows, HasCost, BucketKey, Shown, Sound, Borrow, Live,
         LeftIn, Refusal, Admission;
    assert cost.Clamped() == NoLess(cost);
    if NotDenied(p, key, env.clock(0)) {
      StaleEntryGoes(p, key, env.clock(0));
      var p1 := DenyGet(p, env.clock(0), key).0;
      SoundIgnoresDeny(p, p1);
      if env.ids(0).None? {
        StoreErrorAnswer(p1, env, 1, failOpen, key, limits, NoLess(cost));
      } else {
        var id := env.ids(0).value;
        AdmissionIsAllowed(p1, p1, env.clock(1), key, limits, cost, id);
        DebitShows(p1, env.clock(1), key, limits, NoLess(cost), id);
        DebitStock(p1, env.clock(1), key, limits, NoLess(cost), id, Slot(Rpm, ""));
        AfterMiss(p1, b, env, failOpen, key, limits, cost, id);
        var q := TryDebit(p1, env.clock(1), key, limits, NoLess(cost), id).0;
        var reply := Borrow(b, env.storeMs, key, limits, BorrowSpec(NoLess(cost), q.cfg.chunk)).1;
        if env.fault.NoFault? && reply.Ok? {
          if reply.value.allowed {
            LostGrant(q, b, env, failOpen, key, limits, NoLess(cost), id);
          } else {
            StoreRefusal(q, b, env, failOpen, key, limits, NoLess(cost), id);
          }
        }
      }
    } else {
      RememberedRefusal(p, b, env, failOpen, key, limits, cost);
    }
  }

  // ----- a direct check

  /** Without a pool the store's answer is passed on as it is; without one the fail mode answers: full budgets and no
      reservation, or a refusal for a second. */
  lemma DirectAnswer(b: Books, env: L.Env, failOpen: bool, key: Key, limits: Amounts, cost: Amounts)
    ensures var (b', d) := L.CheckDirect(b, env, failOpen, key, limits, cost);
            var answer := Answer(b, env, key, limits, cost);
            (b' == if env.ids(0).None? || env.fault.NotSent? then b
                   else Check(b, env.storeMs, key, limits, cost, env.ids(0).value).0) &&
            if answer.Some? && answer.value.Ok? then d == answer.value.value
            else if failOpen then
              d.allowed && d.limitType == NoLimit && d.retryMs == 0 && d.reservationId == "" && d.overshoot == ZERO &&
              Shows(d.remaining, limits, limits) && Shows(d.limit, limits, limits)
            else Refusal(d, limits, Backend, 1000)
  {
    hide Check;
    DenialIsRefusal(limits, Backend, 1000);
  }

  /** The limiter itself refuses nothing but partial split limits, before it does anything else. */
  lemma CheckErrsIff(pool: Option<Pool>, b: Books, env: L.Env, failOpen: bool, key: Key, limits: Amounts, cost: Amounts)
    ensures var (q, b', reply) := L.CheckAny(pool, b, env, failOpen, key, limits, cost);
            (reply.Err? <==> (limits.itpm > 0 && limits.otpm <= 0) || (limits.itpm <= 0 && limits.otpm > 0)) &&
            (reply.Err? ==> reply == Err(InvalidArgument) && q == pool && b' == b)
  {
    hide L.CheckFast, L.CheckDirect;
  }

  /** Which path a well-formed check takes depends on the pool alone. */
  lemma CheckTakesPath(pool: Option<Pool>, b: Books, env: L.Env, failOpen: bool, key: Key, limits: Amounts,
                       cost: Amounts)
    requires limits.itpm > 0 <==> limits.otpm > 0
    ensures var (q, b', reply) := L.CheckAny(pool, b, env, failOpen, key, limits, cost);
            if pool.None? then
              var direct := L.CheckDirect(b, env, failOpen, key, limits, cost);
              q == None && b' == direct.0 && reply == Ok(direct.1)
            else
              var fast := L.CheckFast(pool.value, b, env, failOpen, key, limits, cost);
              q == Some(fast.0) && b' == fast.1 && reply == Ok(fast.2)
  {
    hide L.CheckFast, L.CheckDirect;
  }

  // ----- a fast settlement

  lemma FoundIsLive(p: Pool, nowMs: int, id: string)
    ensures var (q, found) := GetReservation(p, nowMs, id);
            OnlyForgets(p, q) && q.leases == p.leases && (found.Some? <==> id in q.res) &&
            (found.Some? <==> id in p.res && nowMs <= p.res[id].expiresAt) &&
              (found.Some? ==> found.value == q.res[id] == p.res[id])
  {
  }

  /** A fast settlement that finds its reservation at home replies the decision it leaves on record, also after a
      deficit
      has been covered: a settlement is answered with what a repetition of it would be answered with. */
  lemma SettleAnswersRecord(p: Pool, b: Books, env: L.Env, id: string, split: bool, actual: Amounts)
    ensures var (q, _, reply) := L.SettleFast(p, b, env, id, split, actual);
            reply.Ok? && id in q.res ==> q.res[id].status == Settled && reply.value == q.res[id].last
  {
    hide Settle, SettleLocal, L.CoverDeficit, GetReservation, HasDeficit, DeficitOf, BucketKey;
    var (p1, found) := GetReservation(p, env.clock(0), id);
    FoundIsLive(p, env.clock(0), id);
    if found.Some? && found.value.split == split {
      LocalRecord(p1, env.clock(1), id, split, actual);
      var (p2, reply) := SettleLocal(p1, env.clock(1), id, split, actual);
      if reply.Ok? {
        CoveredRecord(p2, b, env, id, found.value.key, found.value.limits, split, reply.value);
      }
    }
  }

  lemma LocalRecord(p: Pool, nowMs: int, id: string, split: bool, actual: Amounts)
    ensures var (q, reply) := SettleLocal(p, nowMs, id, split, actual);
            reply.Ok? ==> id in q.res && q.res[id].status == Settled && q.res[id].last == reply.value
  {
    hide BucketKey, LocalDelta, Swept, Masked, DeltaOn, Shown, Each, WorkingLease;
  }

  lemma CoveredRecord(p: Pool, b: Books, env: L.Env, id: string, key: Key, limits: Amounts, split: bool, dec: Decision)
    requires id in p.res && p.res[id].status == Settled && p.res[id].last == dec
    ensures var (q, _, d) := L.CoverDeficit(p, b, env, id, key, limits, split, dec);
            id in q.res ==> q.res[id].status == Settled && q.res[id].last == d
  {
    hide Borrow, ApplyDeficit, CreditLease, GetReservation, DeficitOf, BucketKey, Masked;
    var need := DeficitOf(split, dec.overshoot);
    var reply := Sent(env.fault, b, Borrow(b, env.storeMs, key, limits, BorrowSpec(need, need))).1;
    if reply.Ok? && reply.value.allowed {
      var got := reply.value.got;
      var p1 := CreditLease(p, env.clock(3), key, limits, Masked(split, got));
      CreditKeepsRecords(p, env.clock(3), key, limits, Masked(split, got));
      ApplyKeepsStatus(p1, env.clock(4), id, split, got);
      FoundIsLive(ApplyDeficit(p1, env.clock(4), id, split, got), env.clock(5), id);
    }
  }

  lemma CreditKeepsRecords(p: Pool, nowMs: int, key: Key, limits: Amounts, got: Amounts)
    ensures var q := CreditLease(p, nowMs, key, limits, got);
            q.res == p.res && q.cfg == p.cfg && BucketKey(key) in q.leases
    ensures var q := CreditLease(p, nowMs, key, limits, got);
            q.leases[BucketKey(key)].balance ==
              (if Live(p, BucketKey(key), nowMs) then p.leases[BucketKey(key)].balance else ZERO).Plus(got)
  {
    hide BucketKey;
  }

  lemma ApplyKeepsStatus(p: Pool, nowMs: int, id: string, split: bool, got: Amounts)
    requires id in p.res
    ensures var q := ApplyDeficit(p, nowMs, id, split, got);
            id in q.res && q.res[id].status == p.res[id].status && q.res[id].expiresAt == p.res[id].expiresAt
  {
    hide Absorb, BucketKey;
  }

  /** What a deficit Borrow takes is the overshoot, axis by axis, and no requests. */
  lemma DeficitIsBorrowed(b: Books, nowMs: int, key: Key, limits: Amounts, overshoot: Amounts)
    requires overshoot.NonNegative()
    requires var need := DeficitOf(Split(limits), overshoot);
             var reply := Borrow(b, nowMs, key, limits, BorrowSpec(need, need)).1; reply.Ok? && reply.value.allowed
    ensures var need := DeficitOf(Split(limits), overshoot);
            var got := Borrow(b, nowMs, key, limits, BorrowSpec(need, need)).1.value.got;
            got == if limits.itpm > 0 && limits.otpm > 0 then Amounts(0, 0, overshoot.itpm, overshoot.otpm)
                   else Amounts(0, overshoot.tpm, 0, 0)
  {
    hide Borrow, TryConsume, LoadBucket, Whole;
    var need := DeficitOf(Split(limits), overshoot);
    var spec := BorrowSpec(need, need);
    var k := BucketKey(key);
    GrantIsSound(b, nowMs, key, limits, spec);
    BorrowWrites(b, nowMs, key, limits, spec, Slot(Rpm, k));
    if limits.itpm > 0 && limits.otpm > 0 {
      BorrowWrites(b, nowMs, key, limits, spec, Slot(Itpm, k));
      BorrowWrites(b, nowMs, key, limits, spec, Slot(Otpm, k));
    } else {
      BorrowWrites(b, nowMs, key, limits, spec, Slot(Tpm, k));
    }
  }

  /** A covered deficit: when the Borrow goes through and its grant is applied in time, the settlement answers with no
      overshoot on any axis and with what is then in the lease. */
  lemma DeficitCovered(p: Pool, b: Books, env: L.Env, id: string, dec: Decision)
    requires Sound(p) && id in p.res && p.res[id].status == Settled && p.res[id].last == dec && env.fault.NoFault?
    requires Shows(dec.remaining, p.res[id].limits, dec.remaining)
    requires env.clock(4) < env.clock(3) + p.cfg.leaseTtlMs && env.clock(5) <= p.res[id].expiresAt
    requires var r := p.res[id];
             var need := DeficitOf(r.split, dec.overshoot);
             var reply := Borrow(b, env.storeMs, r.key, r.limits, BorrowSpec(need, need)).1;
               reply.Ok? && reply.value.allowed
    ensures var r := p.res[id];
            var (q, b', d) := L.CoverDeficit(p, b, env, id, r.key, r.limits, r.split, dec);
            var need := DeficitOf(r.split, dec.overshoot);
            d.overshoot == ZERO && d.allowed == dec.allowed && BucketKey(r.key) in q.leases &&
            Shows(d.remaining, r.limits, q.leases[BucketKey(r.key)].balance) && id in q.res && q.res[id].last == d &&
            b' == Borrow(b, env.storeMs, r.key, r.limits, BorrowSpec(need, need)).0
  {
    hide Borrow, ApplyDeficit, CreditLease, GetReservation, Shows, BucketKey, Sound, Absorb;
    var r := p.res[id];
    var need := DeficitOf(r.split, dec.overshoot);
    var got := Borrow(b, env.storeMs, r.key, r.limits, BorrowSpec(need, need)).1.value.got;
    SoundParts(p, "", id);
    DeficitIsBorrowed(b, env.storeMs, r.key, r.limits, dec.overshoot);
    var p1 := CreditLease(p, env.clock(3), r.key, r.limits, Masked(r.split, got));
    CreditKeepsRecords(p, env.clock(3), r.key, r.limits, Masked(r.split, got));
    CreditStock(p, env.clock(3), r.key, r.limits, Masked(r.split, got), Slot(Rpm, ""));
    UseRenewsLease(p, env.clock(3), r.key, r.limits, Masked(r.split, got), id, r.split, env.clock(4));
    ApplyShows(p1, env.clock(4), id, r.split, got);
    ApplyKeepsStatus(p1, env.clock(4), id, r.split, got);
    var p2 := ApplyDeficit(p1, env.clock(4), id, r.split, got);
    FoundIsLive(p2, env.clock(5), id);
    HeldAtLeast(p, env.clock(3), BucketKey(r.key));
    forall a: Axis
      ensures p2.res[id].last.overshoot.At(a) == 0
    {
      assert a in TokenAxes(r.split) ==> p1.leases[BucketKey(r.key)].balance.At(a) >= got.At(a) == dec.overshoot.At(a);
    }
    AllZero(p2.res[id].last.overshoot);
  }

  lemma HeldAtLeast(p: Pool, nowMs: int, k: string)
    requires Sound(p)
    ensures (if Live(p, k, nowMs) then p.leases[k].balance else ZERO).NonNegative()
  {
  }

  lemma AllZero(x: Amounts)
    requires forall a: Axis :: x.At(a) == 0
    ensures x == ZERO
  {
    assert x.At(Rpm) == x.At(Tpm) == x.At(Itpm) == x.At(Otpm) == 0;
  }

  predicate AtHome(p: Pool, nowMs: int, id: string) {
    id in p.res && nowMs <= p.res[id].expiresAt
  }

  /** Where a settlement goes: to the store when the pool does not know the reservation, nowhere when it is of the other
      mode, and otherwise to the pool, whose answer it is unless there is an overshoot to cover. */
  lemma SettleGoes(p: Pool, b: Books, env: L.Env, id: string, split: bool, actual: Amounts)
    ensures var (q, b', reply) := L.SettleFast(p, b, env, id, split, actual);
            var p1 := PurgedPool(p, env.clock(0));
            if !AtHome(p, env.clock(0), id) then
              q == p1 && (b', reply) == Sent(env.fault, b, Settle(b, env.storeMs, id, split, actual))
            else if p.res[id].split != split then q == p1 && b' == b && reply == Err(WrongSettleMode)
            else
              var (p2, dec) := SettleLocal(p1, env.clock(1), id, split, actual);
              dec.Err? || dec.value.overshoot == ZERO ==> q == p2 && b' == b && reply == dec
  {
    hide Settle, SettleLocal, L.CoverDeficit;
    FoundIsLive(p, env.clock(0), id);
  }

  /** Whether a deficit Borrow goes through and its grant is applied while the lease and the record are there. */
  predicate Covered(p: Pool, b: Books, env: L.Env, r: Reservation, overshoot: Amounts, untilMs: int) {
    var need := DeficitOf(r.split, overshoot);
    var reply := Borrow(b, env.storeMs, r.key, r.limits, BorrowSpec(need, need)).1;
    env.fault.NoFault? && reply.Ok? && reply.value.allowed &&
    env.clock(4) < env.clock(3) + p.cfg.leaseTtlMs && env.clock(5) <= untilMs
  }

  /** A settlement beyond what the lease has is answered with no overshoot and with what is then in the lease exactly
      when the store lends what is missing and the grant is applied in time, and otherwise with the overshoot that is
      left.  The store has lent it unless it could not be reached or had too little. */
  lemma OvershootAnswer(p: Pool, b: Books, env: L.Env, id: string, actual: Amounts)
    requires Sound(p) && AtHome(p, env.clock(0), id)
    requires ActsOn(PurgedPool(p, env.clock(0)), env.clock(1), id, p.res[id].split)
    requires var reply := SettleLocal(PurgedPool(p, env.clock(0)), env.clock(1), id, p.res[id].split, actual).1;
             reply.value.overshoot != ZERO
    ensures var r := p.res[id];
            var dec := SettleLocal(PurgedPool(p, env.clock(0)), env.clock(1), id, r.split, actual).1.value;
            var need := DeficitOf(r.split, dec.overshoot);
            var (q, b', reply) := L.SettleFast(p, b, env, id, r.split, actual);
            reply.Ok? && reply.value.allowed &&
            (b' == if env.fault.NotSent? then b
                   else Borrow(b, env.storeMs, r.key, r.limits, BorrowSpec(need, need)).0) &&
            if Covered(p, b, env, r, dec.overshoot, env.clock(1) + RESERVATION_TTL) then
              reply.value.overshoot == ZERO && BucketKey(r.key) in q.leases &&
              Shows(reply.value.remaining, r.limits, q.leases[BucketKey(r.key)].balance)
            else reply.value == dec
  {
    hide Borrow, SettleLocal, L.CoverDeficit, Shows, BucketKey, Sound, ActsOn, LevelOf, Covered;
    var r := p.res[id];
    var p1 := PurgedPool(p, env.clock(0));
    PurgeStock(p, env.clock(0), Slot(Rpm, ""));
    FoundIsLive(p, env.clock(0), id);
    LocalSettleShows(p1, env.clock(1), id, r.split, actual);
    LocalSettleSound(p1, env.clock(1), id, r.split, actual);
    var (p2, dec) := SettleLocal(p1, env.clock(1), id, r.split, actual);
    SoundParts(p2, "", id);
    DeficitIsOvershoot(p2.res[id]);
    ShowsItself(dec.value.remaining, r.limits, p2.leases[BucketKey(r.key)].balance);
    CoversOrNot(p2, b, env, id, dec.value);
    SameTermsCovered(p, p2, b, env, r, p2.res[id], dec.value.overshoot);
  }

  lemma SameTermsCovered(p: Pool, q: Pool, b: Books, env: L.Env, r: Reservation, s: Reservation, overshoot: Amounts)
    requires p.cfg == q.cfg && SameTerms(r, s)
    ensures Covered(p, b, env, r, overshoot, s.expiresAt) == Covered(q, b, env, s, overshoot, s.expiresAt)
  {
    hide Borrow;
  }

  lemma ShowsItself(shown: Amounts, limits: Amounts, value: Amounts)
    requires Shows(shown, limits, value)
    ensures Shows(shown, limits, shown)
  {
  }

  lemma LocalSettleSound(p: Pool, nowMs: int, id: string, split: bool, actual: Amounts)
    requires Sound(p) && ActsOn(p, nowMs, id, split)
    ensures var q := SettleLocal(p, nowMs, id, split, actual).0;
            Sound(q) && q.cfg == p.cfg && id in q.res && SameTerms(p.res[id], q.res[id])
  {
    hide Sound, SettleLocal, Prepared;
    SettleStock(p, nowMs, id, split, actual, Slot(Rpm, ""));
    SettleShape(p, nowMs, id, split, actual);
    SettledLease(p, nowMs, id, split, actual, Slot(Rpm, ""));
  }

  lemma CoversOrNot(p: Pool, b: Books, env: L.Env, id: string, dec: Decision)
    requires Sound(p) && id in p.res && p.res[id].status == Settled && p.res[id].last == dec
    requires Shows(dec.remaining, p.res[id].limits, dec.remaining)
    ensures var r := p.res[id];
            var need := DeficitOf(r.split, dec.overshoot);
            var (q, b', d) := L.CoverDeficit(p, b, env, id, r.key, r.limits, r.split, dec);
            (b' == if env.fault.NotSent? then b
                   else Borrow(b, env.storeMs, r.key, r.limits, BorrowSpec(need, need)).0) &&
            if Covered(p, b, env, r, dec.overshoot, r.expiresAt) then
              d.overshoot == ZERO && d.allowed == dec.allowed && BucketKey(r.key) in q.leases &&
              Shows(d.remaining, r.limits, q.leases[BucketKey(r.key)].balance)
            else d == dec
  {
    hide Borrow, Sound, ApplyDeficit, CreditLease, GetReservation, Shows, BucketKey;
    var r := p.res[id];
    var need := DeficitOf(r.split, dec.overshoot);
    var br := Borrow(b, env.storeMs, r.key, r.limits, BorrowSpec(need, need)).1;
    if Covered(p, b, env, r, dec.overshoot, r.expiresAt) {
      DeficitCovered(p, b, env, id, dec);
    } else if br.Err? || !br.value.allowed {
      RefusedChangesNothing(b, env.storeMs, r.key, r.limits, BorrowSpec(need, need));
    } else if env.fault.NoFault? {
      LateGrant(p, env, id, br.value.got);
    }
  }

  /** A grant that finds its lease or its reservation gone leaves the answer as it was. */
  lemma LateGrant(p: Pool, env: L.Env, id: string, got: Amounts)
    requires id in p.res && (env.clock(4) >= env.clock(3) + p.cfg.leaseTtlMs || env.clock(5) > p.res[id].expiresAt)
    ensures var r := p.res[id];
            var p1 := CreditLease(p, env.clock(3), r.key, r.limits, Masked(r.split, got));
            var found := GetReservation(ApplyDeficit(p1, env.clock(4), id, r.split, got), env.clock(5), id).1;
            found.Some? ==> found.value.last == r.last
  {
    hide BucketKey, Absorb, GetReservation;
    var r := p.res[id];
    var p1 := CreditLease(p, env.clock(3), r.key, r.limits, Masked(r.split, got));
    ApplyKeepsStatus(p1, env.clock(4), id, r.split, got);
    FoundIsLive(ApplyDeficit(p1, env.clock(4), id, r.split, got), env.clock(5), id);
  }

  // ----- refunds

  /** Where a refund goes: to the store when the pool does not know the reservation, and otherwise to the pool, whose
      answer it is; the store is then not asked. */
  lemma RefundGoes(p: Pool, b: Books, env: L.Env, id: string)
    ensures var (q, b', reply) := L.RefundFast(p, b, env, id);
            var p1 := PurgedPool(p, env.clock(0));
            if !AtHome(p, env.clock(0), id) then q == p1 &&
              (b', reply) == Sent(env.fault, b, Refund(b, env.storeMs, id))
            else b' == b && (q, reply) == RefundLocal(p1, env.clock(1), id)
  {
    hide Refund, RefundLocal;
    FoundIsLive(p, env.clock(0), id);
  }

  /** With or without a pool, what the pool does not know is for the store to answer, and a broken connection is an
      error. */
  lemma StoreAnswers(pool: Option<Pool>, b: Books, env: L.Env, id: string, split: bool, actual: Amounts)
    requires pool.Some? ==> !AtHome(pool.value, env.clock(0), id)
    ensures var (_, b', reply) := L.RefundAny(pool, b, env, id);
            (b' == if env.fault.NotSent? then b else Refund(b, env.storeMs, id).0) &&
            (reply == if env.fault.NoFault? then Refund(b, env.storeMs, id).1 else Err(Unavailable))
    ensures var (_, b', reply) := L.SettleAny(pool, b, env, id, split, actual);
            (b' == if env.fault.NotSent? then b else Settle(b, env.storeMs, id, split, actual).0) &&
            (reply == if env.fault.NoFault? then Settle(b, env.storeMs, id, split, actual).1 else Err(Unavailable))
  {
    hide Refund, Settle, L.RefundFast, L.SettleFast;
    if pool.Some? {
      RefundGoes(pool.value, b, env, id);
      SettleGoes(pool.value, b, env, id, split, actual);
    }
  }

  /** With a pool the limiter's settlements and refunds are the pool's. */
  lemma PoolAnswers(p: Pool, b: Books, env: L.Env, id: string, split: bool, actual: Amounts)
    ensures var (q, b', reply) := L.RefundAny(Some(p), b, env, id);
            q.Some? && (q.value, b', reply) == L.RefundFast(p, b, env, id)
    ensures var (q, b', reply) := L.SettleAny(Some(p), b, env, id, split, actual);
            q.Some? && (q.value, b', reply) == L.SettleFast(p, b, env, id, split, actual)
  {
    hide L.RefundFast, L.SettleFast;
  }

  // ----- without a pool

  /** Without a pool, a request that is admitted and refunded before its reservation expires leaves every bucket as if
      it
      had never come, and the refund says so. */
  lemma DirectRefundUndoes(b: Books, env1: L.Env, failOpen: bool, key: Key, limits: Amounts, cost: Amounts, env2: L.Env,
                           slot: Slot)
    requires env1.fault.NoFault? && env2.fault.NoFault? && env1.ids(0).Some? && WrittenBy(b, env1.storeMs)
    requires 0 < env1.storeMs <= env2.storeMs <= env1.storeMs + RESERVATION_TTL
    requires var checked := L.CheckAny(None, b, env1, failOpen, key, limits, cost).2;
             Admits(checked) && checked.value.reservationId != ""
    ensures var (_, b1, checked) := L.CheckAny(None, b, env1, failOpen, key, limits, cost);
            var (_, b2, reply) := L.RefundAny(None, b1, env2, checked.value.reservationId);
            reply == Ok(()) &&
            if BucketKey(key) == slot.key && Metered(Split(limits), slot.axis)
            then b2.Load(slot.axis, slot.key, limits, env2.storeMs) == b.Load(slot.axis, slot.key, limits, env2.storeMs)
            else CellAt(b2, slot) == CellAt(b, slot)
  {
    hide Check, Refund, LoadBucket, CellIn, Metered;
    DirectIsStore(b, env1, failOpen, key, limits, cost);
    var id := env1.ids(0).value;
    var b1 := Check(b, env1.storeMs, key, limits, cost, id).0;
    StoreAnswers(None, b1, env2, id, false, ZERO);
    RefundUndoesCheck(b, env1.storeMs, key, limits, cost, id, env2.storeMs, slot);
  }

  lemma DirectIsStore(b: Books, env: L.Env, failOpen: bool, key: Key, limits: Amounts, cost: Amounts)
    requires env.fault.NoFault? && env.ids(0).Some?
    requires var checked := L.CheckAny(None, b, env, failOpen, key, limits, cost).2;
             Admits(checked) && checked.value.reservationId != ""
    ensures var (_, b1, checked) := L.CheckAny(None, b, env, failOpen, key, limits, cost);
            (b1, checked) == Check(b, env.storeMs, key, limits, cost, env.ids(0).value) &&
            checked.value.reservationId == env.ids(0).value
  {
    hide Check;
    RepliesName(b, env.storeMs, key, limits, cost, env.ids(0).value);
    DirectAnswer(b, env, failOpen, key, limits, cost);
  }

  /** Without a pool, settling for no more than was reserved leaves every bucket as if the actual amounts had been asked
      for, and they would have been granted. */
  lemma DirectSettleIsTheRightGuess(b: Books, env1: L.Env, failOpen: bool, key: Key, limits: Amounts, cost: Amounts,
                                    env2: L.Env, actual: Amounts, slot: Slot)
    requires env1.fault.NoFault? && env2.fault.NoFault? && env1.ids(0).Some? && WrittenBy(b, env1.storeMs)
    requires 0 < env1.storeMs <= env2.storeMs <= env1.storeMs + RESERVATION_TTL
    requires var checked := L.CheckAny(None, b, env1, failOpen, key, limits, cost).2;
             Admits(checked) && checked.value.reservationId != ""
    requires forall a | Metered(Split(limits), a) && a != Rpm :: Clamp(actual.At(a)) <= Clamp(cost.At(a))
    ensures var (_, b1, checked) := L.CheckAny(None, b, env1, failOpen, key, limits, cost);
            var (_, b2, reply) := L.SettleAny(None, b1, env2, checked.value.reservationId, Split(limits), actual);
            var (_, guessed, verdict) := L.CheckAny(None, b, env1, failOpen, key, limits, actual.(rpm := cost.rpm));
            Admits(reply) && Admits(verdict) &&
            if BucketKey(key) == slot.key && Metered(Split(limits), slot.axis)
            then b2.Load(slot.axis, slot.key, limits, env2.storeMs) ==
              guessed.Load(slot.axis, slot.key, limits, env2.storeMs)
            else CellAt(b2, slot) == CellAt(guessed, slot)
  {
    hide Check, Settle, LoadBucket, CellIn, Metered;
    DirectIsStore(b, env1, failOpen, key, limits, cost);
    var id, guess := env1.ids(0).value, actual.(rpm := cost.rpm);
    var b1 := Check(b, env1.storeMs, key, limits, cost, id).0;
    StoreAnswers(None, b1, env2, id, Split(limits), actual);
    SettleIsTheRightGuess(b, env1.storeMs, key, limits, cost, id, env2.storeMs, actual, slot);
    DirectAnswer(b, env1, failOpen, key, limits, guess);
    CheckErrsIff(None, b, env1, failOpen, key, limits, cost);
    CheckErrsIff(None, b, env1, failOpen, key, limits, guess);
  }

  /** Without a pool a reservation that is not there, or no longer there, cannot be refunded or settled. */
  lemma DirectUnknown(b: Books, env: L.Env, id: string, split: bool, actual: Amounts)
    requires env.fault.NoFault? && (id in b.res ==> env.storeMs > b.res[id].expiresAt)
    ensures L.RefundAny(None, b, env, id).2 == Err(ReservationNotFound)
    ensures L.SettleAny(None, b, env, id, split, actual).2 == Err(ReservationNotFound)
  {
    hide Refund, Settle;
    StoreAnswers(None, b, env, id, split, actual);
    RefundAnswers(b, env.storeMs, id);
    SettleAnswers(b, env.storeMs, id, split, actual);
  }
}
