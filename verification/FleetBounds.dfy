/** What a fleet can admit: requests are never spent twice, whatever the interleaving, the faults and the
    crashes; a window can only exceed its budget by credits that were outstanding when it began. */
module FleetBounds {
  import opened Quota
  import opened Bucket
  import opened StoreSpec
  import opened StoreLedger
  import opened StoreRuns
  import opened PoolSpec
  import opened PoolLedger
  import opened Fleet
  import opened FleetLedger
  import opened Sums

  // ----- limits stay within m

  predicate LimitOk(slot: Slot, k: string, limits: Amounts, m: nat) {
    k == slot.key && Metered(Split(limits), slot.axis) ==> limits.At(slot.axis) <= m
  }

  predicate KeyLimitOk(slot: Slot, key: Key, limits: Amounts, m: nat) {
    LimitOk(slot, BucketKey(key), limits, m)
  }

  ghost predicate CappedThread(th: Thread, slot: Slot, m: nat) {
    match th
    case Consulting(_, key, limits, _, _) => KeyLimitOk(slot, key, limits, m)
    case Debiting(_, key, limits, _, _, _) => KeyLimitOk(slot, key, limits, m)
    case Borrowing(_, key, limits, _, _, _, _) => KeyLimitOk(slot, key, limits, m)
    case Crediting(_, key, limits, _, _, _) => KeyLimitOk(slot, key, limits, m)
    case Peeking(_, key, limits, _) => KeyLimitOk(slot, key, limits, m)
    case Settling(_, _, key, limits, _, _) => KeyLimitOk(slot, key, limits, m)
    case Covering(_, _, key, limits, _, _) => KeyLimitOk(slot, key, limits, m)
    case CreditingDeficit(_, _, key, limits, _, _) => KeyLimitOk(slot, key, limits, m)
    case Returning(_, pending) => forall k | k in pending :: WellKeyed(k) && LimitOk(slot, k, pending[k].limits, m)
    case Calling(call) => call.CheckCall? ==> KeyLimitOk(slot, call.key, call.limits, m)
    case _ => true
  }

  ghost predicate CappedPod(pod: Pod, slot: Slot, m: nat) {
    pod.Up? ==>
      (forall k | k in pod.pool.leases :: LimitOk(slot, k, pod.pool.leases[k].limits, m)) &&
      (forall id | id in pod.pool.res :: KeyLimitOk(slot, pod.pool.res[id].key, pod.pool.res[id].limits, m))
  }

  /** All limits in the fleet that concern the bucket are at most m, and its store clock has been running. */
  ghost predicate Capped(f: Fleet, slot: Slot, m: nat) {
    0 < f.nowMs && Steady(MonotoneClock, f.store, f.nowMs, slot, m) &&
    (forall pod | pod in f.pods :: CappedPod(f.pods[pod], slot, m)) &&
    (forall t | t in f.threads :: CappedThread(f.threads[t], slot, m))
  }

  /** The limits that callers bring in. */
  ghost predicate EventWithin(e: Event, slot: Slot, m: nat) {
    e.Begin? ==> CappedThread(e.start, slot, m)
  }

  ghost predicate RunWithin(run: seq<Event>, slot: Slot, m: nat) {
    forall e | e in run :: EventWithin(e, slot, m)
  }

  ghost predicate StaysCapped(th: Thread, pool: Pool, failOpen: bool, input: Input, slot: Slot, m: nat) {
    var (th', pool') := PoolStep(th, pool, failOpen, input);
    CappedThread(th', slot, m) && CappedPod(Up(pool', failOpen), slot, m)
  }

  lemma CappedDebit(th: Thread, pool: Pool, failOpen: bool, input: Input, slot: Slot, m: nat)
    requires th.Debiting? && SoundPod(Up(pool, failOpen)) && CappedThread(th, slot, m) &&
             CappedPod(Up(pool, failOpen), slot, m)
    ensures StaysCapped(th, pool, failOpen, input, slot, m)
  {
    hide LimitOk, WellKeyed, Sound, Covers, LocalDelta, Absorb, Shown;
  }

  lemma CappedCredit(th: Thread, pool: Pool, failOpen: bool, input: Input, slot: Slot, m: nat)
    requires (th.Crediting? || th.CreditingDeficit?) && SoundPod(Up(pool, failOpen)) && CappedThread(th, slot, m) &&
             CappedPod(Up(pool, failOpen), slot, m)
    ensures StaysCapped(th, pool, failOpen, input, slot, m)
  {
    hide LimitOk, WellKeyed, Sound, Covers, LocalDelta, Absorb, Shown;
  }

  lemma CappedSettle(th: Thread, pool: Pool, failOpen: bool, input: Input, slot: Slot, m: nat)
    requires th.Settling? && SoundPod(Up(pool, failOpen)) && CappedThread(th, slot, m) &&
             CappedPod(Up(pool, failOpen), slot, m)
    ensures StaysCapped(th, pool, failOpen, input, slot, m)
  {
    hide LimitOk, WellKeyed, Sound, Covers, LocalDelta, Absorb, Shown;
  }

  lemma CappedApply(th: Thread, pool: Pool, failOpen: bool, input: Input, slot: Slot, m: nat)
    requires th.Applying? && SoundPod(Up(pool, failOpen)) && CappedThread(th, slot, m) &&
             CappedPod(Up(pool, failOpen), slot, m)
    ensures StaysCapped(th, pool, failOpen, input, slot, m)
  {
    hide LimitOk, WellKeyed, Sound, Covers, LocalDelta, Absorb, Shown;
  }

  lemma CappedRefund(th: Thread, pool: Pool, failOpen: bool, input: Input, slot: Slot, m: nat)
    requires th.Refunding? && SoundPod(Up(pool, failOpen)) && CappedThread(th, slot, m) &&
             CappedPod(Up(pool, failOpen), slot, m)
    ensures StaysCapped(th, pool, failOpen, input, slot, m)
  {
    hide LimitOk, WellKeyed, Sound, Covers, LocalDelta, Absorb, Shown;
  }

  lemma CappedOther(th: Thread, pool: Pool, failOpen: bool, input: Input, slot: Slot, m: nat)
    requires (th.Closing? || th.Consulting? || th.Noting? || th.Peeking? || th.LookingUp?) &&
             SoundPod(Up(pool, failOpen)) && CappedThread(th, slot, m) && CappedPod(Up(pool, failOpen), slot, m)
    ensures StaysCapped(th, pool, failOpen, input, slot, m)
  {
    hide LimitOk, WellKeyed, Sound, Covers, LocalDelta, Absorb, Shown;
  }

  lemma PoolStepCapped(th: Thread, pool: Pool, failOpen: bool, input: Input, slot: Slot, m: nat)
    requires Owner(th).Some? && !AtStore(th) && SoundPod(Up(pool, failOpen))
    requires CappedThread(th, slot, m) && CappedPod(Up(pool, failOpen), slot, m)
    ensures StaysCapped(th, pool, failOpen, input, slot, m)
  {
    hide StaysCapped, SoundPod, CappedThread, CappedPod;
    match th {
      case Debiting(_, _, _, _, _, _) => CappedDebit(th, pool, failOpen, input, slot, m);
      case Crediting(_, _, _, _, _, _) => CappedCredit(th, pool, failOpen, input, slot, m);
      case CreditingDeficit(_, _, _, _, _, _) => CappedCredit(th, pool, failOpen, input, slot, m);
      case Settling(_, _, _, _, _, _) => CappedSettle(th, pool, failOpen, input, slot, m);
      case Applying(_, _, _, _) => CappedApply(th, pool, failOpen, input, slot, m);
      case Refunding(_, _) => CappedRefund(th, pool, failOpen, input, slot, m);
      case Closing(_) => CappedOther(th, pool, failOpen, input, slot, m);
      case Consulting(_, _, _, _, _) => CappedOther(th, pool, failOpen, input, slot, m);
      case Noting(_, _, _, _) => CappedOther(th, pool, failOpen, input, slot, m);
      case Peeking(_, _, _, _) => CappedOther(th, pool, failOpen, input, slot, m);
      case LookingUp(_, _, _) => CappedOther(th, pool, failOpen, input, slot, m);
    }
  }

  /** A store call a thread makes loads the bucket with a capacity of at most m. */
  lemma CallIsWithin(f: Fleet, th: Thread, input: Input, slot: Slot, m: nat)
    requires AtStore(th) && SoundThread(th) && CappedThread(th, slot, m) && CallOf(th, input).Some?
    ensures CallWithin(MonotoneClock, CallOf(th, input).value, slot, m)
  {
    hide SplitKey;
  }

  lemma StoreStepCapped(f: Fleet, th: Thread, input: Input, slot: Slot, m: nat)
    requires AtStore(th) && SoundThread(th) && Capped(f, slot, m) && CappedThread(th, slot, m)
    ensures var (th', books') := StoreStep(th, f.store, f.nowMs, input);
            CappedThread(th', slot, m) && Steady(MonotoneClock, books', f.nowMs, slot, m)
    ensures CallOf(th, input).Some? ==>
              Flow(f.store, f.nowMs, CallOf(th, input).value, slot) * UNIT +
              PotentialAt(Exec(f.store, f.nowMs, CallOf(th, input).value), f.nowMs, slot, m) <=
                PotentialAt(f.store, f.nowMs, slot, m)
  {
    hide Exec, Flow, Potential, Steady, LimitOk, WellKeyed, Borrow;
    if CallOf(th, input).Some? {
      CallIsWithin(f, th, input, slot, m);
      OneIsAdmissible(f.nowMs, CallOf(th, input).value, slot, m);
      SteadyStep(MonotoneClock, f.store, f.nowMs, Timed(f.nowMs, CallOf(th, input).value), slot, m);
    }
  }

  lemma OneIsAdmissible(nowMs: int, call: Call, slot: Slot, m: nat)
    requires 0 < nowMs && CallWithin(MonotoneClock, call, slot, m)
    ensures Admissible(MonotoneClock, nowMs, [Timed(nowMs, call)], slot, m)
  {
    hide CallWithin;
  }

  lemma EventCapped(f: Fleet, e: Event, slot: Slot, m: nat)
    requires SoundFleet(f) && Capped(f, slot, m) && EventWithin(e, slot, m)
    ensures Capped(Next(f, e), slot, m)
  {
    hide PoolStep, StoreStep, CappedThread, CappedPod, SoundPod, SoundThread, IsStart, WellFormed;
    match e {
      case Tick(_) =>
      case Launch(_, cfg, failOpen) => EmptyIsCapped(cfg, failOpen, slot, m);
      case Crash(_) => DownIsCapped(slot, m);
      case Begin(_, _) =>
      case Step(t, input) =>
        DownIsCapped(slot, m);
        if t in f.threads {
          var th := f.threads[t];
          if Owner(th).Some? && !IsUp(f, th.pod) {
          } else if AtStore(th) {
            StoreStepCapped(f, th, input, slot, m);
          } else if Owner(th).Some? {
            PoolStepCapped(th, f.pods[th.pod].pool, f.pods[th.pod].failOpen, input, slot, m);
          }
        }
    }
  }

  lemma EmptyIsCapped(cfg: Config, failOpen: bool, slot: Slot, m: nat)
    ensures CappedPod(Up(EmptyPool(cfg), failOpen), slot, m)
  {
  }

  lemma DownIsCapped(slot: Slot, m: nat)
    ensures CappedPod(Down, slot, m) && CappedThread(Idle, slot, m)
  {
  }

  // ----- the store side

  /** What left the store's bucket between two states and is not back: holds of its reservations, including
      forgotten ones, and lease credits. */
  ghost function Taken(f: Fleet, g: Fleet, c: Account, slot: Slot): int {
    Holds(g.store.res, slot) - Holds(f.store.res, slot) + c.storeGone + c.borrowed - c.returned
  }

  lemma EventPays(f: Fleet, e: Event, slot: Slot, m: nat)
    requires SoundFleet(f) && Capped(f, slot, m)
    ensures Taken(f, Next(f, e), Charge(f, e, slot), slot) * UNIT +
            PotentialAt(Next(f, e).store, Next(f, e).nowMs, slot, m)
              <= PotentialAt(f.store, f.nowMs, slot, m) + (if e.Tick? then Gain(m, e.ms) else 0)
  {
    hide PoolStep, AfterCall, CappedThread, CappedPod, SoundPod, SoundThread, IsStart, Potential, Holds, Exec, Flow,
         Forgotten, PoolCharge, Steady, InFlight, WellFormed, Gain;
    match e {
      case Tick(ms) => TimeFills(CellAt(f.store, slot), f.nowMs, f.nowMs + ms, m);
      case Launch(_, _, _) =>
      case Crash(_) =>
      case Begin(_, _) =>
      case Step(t, input) =>
        if t in f.threads {
          var th := f.threads[t];
          if Owner(th).Some? && !IsUp(f, th.pod) {
          } else if AtStore(th) {
            StoreStepCapped(f, th, input, slot, m);
            StepPays(f, th, input, slot, m);
          } else if Owner(th).Some? {
            OnlyPoolTerms(th, f.pods[th.pod].pool, input, slot);
            PoolReturnsNothing(th, f.pods[th.pod].pool, input, slot);
          }
        }
    }
  }

  lemma PoolReturnsNothing(th: Thread, pool: Pool, input: Input, slot: Slot)
    ensures PoolCharge(th, pool, input, slot).returned == 0
  {
  }

  lemma StepPays(f: Fleet, th: Thread, input: Input, slot: Slot, m: nat)
    requires AtStore(th) && SoundThread(th) && WellFormed(f.store)
    requires CallOf(th, input).Some? ==>
               Flow(f.store, f.nowMs, CallOf(th, input).value, slot) * UNIT +
               PotentialAt(Exec(f.store, f.nowMs, CallOf(th, input).value), f.nowMs, slot, m) <=
                 PotentialAt(f.store, f.nowMs, slot, m)
    ensures var books' := StoreStep(th, f.store, f.nowMs, input).1;
            var c := StoreCharge(th, f.store, f.nowMs, input, slot);
            (Holds(books'.res, slot) - Holds(f.store.res, slot) + c.storeGone + c.borrowed - c.returned) * UNIT
              + PotentialAt(books', f.nowMs, slot, m) <= PotentialAt(f.store, f.nowMs, slot, m)
  {
    hide Exec, Flow, Holds, Potential, AfterCall, WellFormed;
    if CallOf(th, input).Some? {
      HoldsFollowFlow(f.store, f.nowMs, CallOf(th, input).value, slot);
    }
  }

  lemma {:induction false} RunPays(f: Fleet, run: seq<Event>, slot: Slot, m: nat)
    requires SoundFleet(f) && Capped(f, slot, m) && RunWithin(run, slot, m)
    ensures Taken(f, After(f, run), Total(f, run, slot), slot) * UNIT +
            PotentialAt(After(f, run).store, After(f, run).nowMs, slot, m)
              <= PotentialAt(f.store, f.nowMs, slot, m) + Gain(m, Elapsed(run))
    decreases |run|
  {
    hide SoundFleet, Capped, Charge, Next, Holds, Potential, Assets, EventWithin;
    if run != [] {
      EventBalanced(f, run[0], slot);
      EventCapped(f, run[0], slot, m);
      EventPays(f, run[0], slot, m);
      RunPays(Next(f, run[0]), run[1..], slot, m);
      assert Gain(m, Elapsed(run)) == Gain(m, if run[0].Tick? then run[0].ms else 0) + Gain(m, Elapsed(run[1..]));
    }
  }

  // ----- the request ledger

  /** On the request axis every credit a pool step takes out of a lease is an admitted request. */
  ghost predicate RequestsBalanced(th: Thread, pool: Pool, failOpen: bool, input: Input, slot: Slot) {
    var (th', pool') := PoolStep(th, pool, failOpen, input);
    var c := PoolCharge(th, pool, input, slot);
    LeaseOf(pool'.leases, slot) + InFlight(th', slot) + c.lapsed + c.admitted - c.refunded
      == LeaseOf(pool.leases, slot) + InFlight(th, slot) &&
    c.lapsed >= 0
  }

  lemma RequestsOfDebit(th: Thread, pool: Pool, failOpen: bool, input: Input, slot: Slot)
    requires th.Debiting? && SoundThread(th) && SoundPod(Up(pool, failOpen)) && slot.axis == Rpm
    ensures RequestsBalanced(th, pool, failOpen, input, slot)
  {
    hide WellKeyed, LocalDelta, Absorb, Shown, ExpiredHolds, OverwrittenHold, AppliedGrant, SoundReservation;
  }

  lemma RequestsOfCredit(th: Thread, pool: Pool, failOpen: bool, input: Input, slot: Slot)
    requires (th.Crediting? || th.CreditingDeficit?) && SoundThread(th) && SoundPod(Up(pool, failOpen)) &&
             slot.axis == Rpm
    ensures RequestsBalanced(th, pool, failOpen, input, slot)
  {
    hide WellKeyed, LocalDelta, Absorb, Shown, ExpiredHolds, OverwrittenHold, AppliedGrant, SoundReservation;
  }

  lemma RequestsOfSettle(th: Thread, pool: Pool, failOpen: bool, input: Input, slot: Slot)
    requires th.Settling? && SoundThread(th) && SoundPod(Up(pool, failOpen)) && slot.axis == Rpm
    ensures RequestsBalanced(th, pool, failOpen, input, slot)
  {
    hide WellKeyed, LocalDelta, Absorb, Shown, ExpiredHolds, OverwrittenHold, AppliedGrant, SoundReservation;
  }

  lemma RequestsOfApply(th: Thread, pool: Pool, failOpen: bool, input: Input, slot: Slot)
    requires th.Applying? && SoundThread(th) && SoundPod(Up(pool, failOpen)) && slot.axis == Rpm
    ensures RequestsBalanced(th, pool, failOpen, input, slot)
  {
    hide WellKeyed, LocalDelta, Absorb, Shown, ExpiredHolds, OverwrittenHold, AppliedGrant, SoundReservation;
  }

  lemma RequestsOfRefund(th: Thread, pool: Pool, failOpen: bool, input: Input, slot: Slot)
    requires th.Refunding? && SoundThread(th) && SoundPod(Up(pool, failOpen)) && slot.axis == Rpm
    ensures RequestsBalanced(th, pool, failOpen, input, slot)
  {
    hide WellKeyed, LocalDelta, Absorb, Shown, ExpiredHolds, OverwrittenHold, AppliedGrant, SoundReservation;
  }

  lemma RequestsOfOther(th: Thread, pool: Pool, failOpen: bool, input: Input, slot: Slot)
    requires (th.Closing? || th.Consulting? || th.Noting? || th.Peeking? || th.LookingUp?) && SoundThread(th) &&
             SoundPod(Up(pool, failOpen)) && slot.axis == Rpm
    ensures RequestsBalanced(th, pool, failOpen, input, slot)
  {
    hide WellKeyed, LocalDelta, Absorb, Shown, ExpiredHolds, OverwrittenHold, AppliedGrant, SoundReservation;
  }

  lemma RequestStep(th: Thread, pool: Pool, failOpen: bool, input: Input, slot: Slot)
    requires Owner(th).Some? && !AtStore(th) && SoundThread(th) && SoundPod(Up(pool, failOpen)) && slot.axis == Rpm
    ensures RequestsBalanced(th, pool, failOpen, input, slot)
  {
    hide RequestsBalanced, SoundThread, SoundPod;
    match th {
      case Debiting(_, _, _, _, _, _) => RequestsOfDebit(th, pool, failOpen, input, slot);
      case Crediting(_, _, _, _, _, _) => RequestsOfCredit(th, pool, failOpen, input, slot);
      case CreditingDeficit(_, _, _, _, _, _) => RequestsOfCredit(th, pool, failOpen, input, slot);
      case Settling(_, _, _, _, _, _) => RequestsOfSettle(th, pool, failOpen, input, slot);
      case Applying(_, _, _, _) => RequestsOfApply(th, pool, failOpen, input, slot);
      case Refunding(_, _) => RequestsOfRefund(th, pool, failOpen, input, slot);
      case Closing(_) => RequestsOfOther(th, pool, failOpen, input, slot);
      case Consulting(_, _, _, _, _) => RequestsOfOther(th, pool, failOpen, input, slot);
      case Noting(_, _, _, _) => RequestsOfOther(th, pool, failOpen, input, slot);
      case Peeking(_, _, _, _) => RequestsOfOther(th, pool, failOpen, input, slot);
      case LookingUp(_, _, _) => RequestsOfOther(th, pool, failOpen, input, slot);
    }
  }

  /** Requests taken from the store are admitted, refunded, outstanding, or lost on the way; nothing else. */
  lemma EventRequests(f: Fleet, e: Event, slot: Slot)
    requires SoundFleet(f) && slot.axis == Rpm
    ensures var c := Charge(f, e, slot);
            Taken(f, Next(f, e), c, slot) ==
              c.admitted - c.refunded + c.unseen + Outstanding(Next(f, e), slot) - Outstanding(f, slot) + c.lapsed +
                c.dropped &&
            c.unseen >= 0 && c.lapsed >= 0 && c.dropped >= 0
  {
    hide Assets, Outstanding, SoundThread, SoundPod, PoolStep, StoreStep, PoolCharge, StoreCharge, InFlight, WellFormed,
         IsStart, Holds;
    match e {
      case Tick(_) => SameHoldings(f, Next(f, e), slot);
      case Launch(pod, cfg, failOpen) =>
        if pod !in f.pods {
          EmptyPoolIsEmpty(cfg, failOpen, slot);
          NewPod(f, pod, Up(EmptyPool(cfg), failOpen), slot);
        }
      case Crash(pod) =>
        if IsUp(f, pod) {
          PodUpdate(f, pod, Down, slot);
          LeaseIsNonNegative(f.pods[pod], slot);
        }
      case Begin(t, start) =>
        if IsStart(start) && (t in f.threads ==> f.threads[t].Idle?) {
          BeginUpdate(f, t, start, slot);
        }
      case Step(t, input) =>
        if t in f.threads {
          StepRequests(f, t, input, slot);
        }
    }
  }

  lemma LeaseIsNonNegative(pod: Pod, slot: Slot)
    requires SoundPod(pod) && pod.Up?
    ensures LeaseOf(pod.pool.leases, slot) >= 0
  {
  }

  lemma FlightIsNonNegative(th: Thread, slot: Slot)
    requires SoundThread(th)
    ensures InFlight(th, slot) >= 0
  {
  }

  lemma StepRequests(f: Fleet, t: nat, input: Input, slot: Slot)
    requires SoundFleet(f) && slot.axis == Rpm && t in f.threads
    ensures var e := Step(t, input);
            var c := Charge(f, e, slot);
            Taken(f, Next(f, e), c, slot) ==
              c.admitted - c.refunded + c.unseen + Outstanding(Next(f, e), slot) - Outstanding(f, slot) + c.lapsed +
                c.dropped &&
            c.unseen >= 0 && c.lapsed >= 0 && c.dropped >= 0
  {
    hide Assets, Outstanding, SoundThread, SoundPod, PoolStep, StoreStep, PoolCharge, StoreCharge, InFlight, WellFormed,
         Holds;
    var th := f.threads[t];
    if Owner(th).Some? && !IsUp(f, th.pod) {
      IdleIsSound(slot);
      FlightIsNonNegative(th, slot);
      AssetsUpdate(f, t, Idle, slot);
    } else if AtStore(th) {
      StoreStepBalanced(th, f.store, f.nowMs, input, slot);
      StoreTerms(th, f.store, f.nowMs, input, slot);
      var (th', books) := StoreStep(th, f.store, f.nowMs, input);
      AssetsUpdate(f, t, th', slot);
      SameHoldings(f.(threads := f.threads[t := th']), Next(f, Step(t, input)), slot);
    } else if Owner(th).Some? {
      var pod := f.pods[th.pod];
      RequestStep(th, pod.pool, pod.failOpen, input, slot);
      OnlyPoolTerms(th, pod.pool, input, slot);
      var (th', pool) := PoolStep(th, pod.pool, pod.failOpen, input);
      AssetsUpdate(f, t, th', slot);
      PodUpdate(f.(threads := f.threads[t := th']), th.pod, pod.(pool := pool), slot);
    }
  }

  lemma StoreTerms(th: Thread, books: Books, nowMs: int, input: Input, slot: Slot)
    requires AtStore(th)
    ensures var c := StoreCharge(th, books, nowMs, input, slot);
            (th.Calling? ==> c.borrowed == c.returned == c.dropped == 0) &&
            (!th.Calling? ==> c.admitted == c.refunded == c.unseen == c.storeGone == 0)
  {
    hide Flow, Forgotten;
  }

  lemma {:induction false} RunRequests(f: Fleet, run: seq<Event>, slot: Slot)
    requires SoundFleet(f) && slot.axis == Rpm
    ensures var c := Total(f, run, slot);
            Taken(f, After(f, run), c, slot) ==
              c.admitted - c.refunded + c.unseen + Outstanding(After(f, run), slot) - Outstanding(f, slot) + c.lapsed +
                c.dropped &&
            c.unseen >= 0 && c.lapsed >= 0 && c.dropped >= 0
    decreases |run|
  {
    hide SoundFleet, Charge, Next, Holds, Assets, Outstanding;
    if run != [] {
      EventBalanced(f, run[0], slot);
      EventRequests(f, run[0], slot);
      RunRequests(Next(f, run[0]), run[1..], slot);
    }
  }

  lemma OutstandingIsNonNegative(f: Fleet, slot: Slot)
    requires SoundFleet(f)
    ensures Outstanding(f, slot) >= 0
  {
    hide SoundPod, SoundThread, InFlight, LeaseOf;
    forall pod | pod in f.pods
      ensures LeasesIn(slot)(f.pods[pod]) >= 0
    {
      if f.pods[pod].Up? {
        LeaseIsNonNegative(f.pods[pod], slot);
      }
    }
    forall t | t in f.threads
      ensures FlightOf(slot)(f.threads[t]) >= 0
    {
      FlightIsNonNegative(f.threads[t], slot);
    }
    SumNonNegative(f.pods, LeasesIn(slot));
    SumNonNegative(f.threads, FlightOf(slot));
  }

  /** Window bound: in any stretch of any run, requests admitted minus requests refunded are at most one full
      bucket, what refilled meanwhile, and the request credits outstanding when the stretch began. */
  lemma WindowOvershoot(f: Fleet, run: seq<Event>, slot: Slot, m: nat)
    requires SoundFleet(f) && Capped(f, slot, m) && RunWithin(run, slot, m) && slot.axis == Rpm
    ensures var c := Total(f, run, slot);
            (c.admitted - c.refunded) * UNIT <= (m + Outstanding(f, slot)) * UNIT + Gain(m, Elapsed(run))
  {
    hide SoundFleet, Capped, Outstanding, Holds, Gain, Total, After, Elapsed, RunWithin;
    RunPays(f, run, slot, m);
    RunRequests(f, run, slot);
    ExactLedger(f, run, slot);
    OutstandingIsNonNegative(After(f, run), slot);
  }

  /** No double spend: from a cold start, in every interleaving of any number of threads on any number of
      pods, with store errors, lost replies, crashes and expiries, requests admitted minus requests
      refunded never exceed m plus m per minute elapsed. */
  lemma NoDoubleSpend(startMs: int, run: seq<Event>, slot: Slot, m: nat)
    requires 0 < startMs && RunWithin(run, slot, m) && slot.axis == Rpm
    ensures var c := Total(ColdStart(startMs), run, slot);
            (c.admitted - c.refunded) * UNIT <= m * UNIT + Gain(m, Elapsed(run))
  {
    WindowOvershoot(ColdStart(startMs), run, slot, m);
  }

  /** Token usage of the whole fleet: everything held anywhere, on any axis, counting what was lost, exceeds
      m plus m per minute elapsed by no more than the grants that were applied twice. */
  lemma FleetUsageBound(startMs: int, run: seq<Event>, slot: Slot, m: nat)
    requires 0 < startMs && RunWithin(run, slot, m)
    ensures var f := ColdStart(startMs);
            var c := Total(f, run, slot);
            (Holds(After(f, run).store.res, slot) + c.storeGone + Assets(After(f, run), slot) + c.lapsed + c.gone +
             c.dropped) * UNIT
              <= (m + c.surplus) * UNIT + Gain(m, Elapsed(run))
  {
    hide Gain, Total, After, Elapsed, RunWithin;
    var f := ColdStart(startMs);
    RunPays(f, run, slot, m);
    ExactLedger(f, run, slot);
  }

  lemma {:induction false} RunCapped(f: Fleet, run: seq<Event>, slot: Slot, m: nat)
    requires SoundFleet(f) && Capped(f, slot, m) && RunWithin(run, slot, m)
    ensures SoundFleet(After(f, run)) && Capped(After(f, run), slot, m)
    decreases |run|
  {
    hide SoundFleet, Capped, Next, EventWithin, Assets, Charge;
    if run != [] {
      EventBalanced(f, run[0], slot);
      EventCapped(f, run[0], slot, m);
      RunCapped(Next(f, run[0]), run[1..], slot, m);
    }
  }

  /** So in any stretch of any run from a cold start the overshoot is what was outstanding when it began. */
  lemma StretchOvershoot(startMs: int, before: seq<Event>, stretch: seq<Event>, slot: Slot, m: nat)
    requires 0 < startMs && RunWithin(before, slot, m) && RunWithin(stretch, slot, m) && slot.axis == Rpm
    ensures var f := After(ColdStart(startMs), before);
            var c := Total(f, stretch, slot);
            (c.admitted - c.refunded) * UNIT <= (m + Outstanding(f, slot)) * UNIT + Gain(m, Elapsed(stretch))
  {
    hide After, Total, Elapsed, RunWithin, Outstanding, Gain;
    RunCapped(ColdStart(startMs), before, slot, m);
    WindowOvershoot(After(ColdStart(startMs), before), stretch, slot, m);
  }
}
