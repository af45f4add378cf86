/** When unused lease credits stay within a chunk per pod: never by themselves, but exactly as long as no event
    overfills its lease.  A credit that a thread has borrowed for its own request and is about to debit is
    claimed, and does not count as unused. */
module LeaseBounds {
  import opened Quota
  import opened StoreSpec
  import opened StoreLedger
  import opened PoolSpec
  import opened PoolLedger
  import opened Fleet
  import opened FleetLedger
  import opened Sums

  /** What a thread between its credit and its debit is about to take. */
  function Claim(th: Thread, slot: Slot): int {
    if th.Debiting? && th.attempt.AfterBorrow? && Touches(slot, th.key, Split(th.limits))
    then th.cost.At(slot.axis) else 0
  }

  ghost function ClaimOn(pod: nat, slot: Slot): Thread -> int {
    (th: Thread) => if Owner(th) == Some(pod) then Claim(th, slot) else 0
  }

  ghost function Claimed(f: Fleet, pod: nat, slot: Slot): int {
    Sum(f.threads, ClaimOn(pod, slot))
  }

  /** The balance of a live lease. */
  function LevelOf(p: Pool, nowMs: int, slot: Slot): int {
    if Live(p, slot.key, nowMs) then p.leases[slot.key].balance.At(slot.axis) else 0
  }

  function Paid(cost: Amounts, limits: Amounts, a: Axis): int {
    if Metered(Split(limits), a) then cost.At(a) else 0
  }

  /** What a step puts into the bucket's lease, if it puts anything there: a grant less what its request takes, a
      claim given up, a deficit grant, what a settlement or a refund restores, and a deficit grant applied. */
  function Brings(th: Thread, p: Pool, at: int, slot: Slot): Option<int> {
    match th
    case Crediting(_, key, limits, cost, _, got) =>
      if BucketKey(key) == slot.key then Some(got.At(slot.axis) - Paid(cost, limits, slot.axis)) else None
    case Debiting(_, key, limits, cost, _, attempt) =>
      var covered := Live(p, BucketKey(key), at) && Covers(p.leases[BucketKey(key)].balance, cost, Split(limits));
      if attempt.AfterBorrow? && Touches(slot, key, Split(limits)) && !covered then Some(cost.At(slot.axis)) else None
    case CreditingDeficit(_, _, key, _, got, split) =>
      if BucketKey(key) == slot.key then Some(Masked(split, got).At(slot.axis)) else None
    case Settling(_, id, _, _, split, actual) =>
      if ActsOn(p, at, id, split) && BucketKey(p.res[id].key) == slot.key && slot.axis in TokenAxes(split)
      then Some(p.res[id].reserved.At(slot.axis) - Clamp(actual.At(slot.axis))) else None
    case Refunding(_, id) =>
      if id in p.res && ActsOn(p, at, id, p.res[id].split) && Touches(slot, p.res[id].key, p.res[id].split)
      then Some(p.res[id].reserved.At(slot.axis)) else None
    case Applying(_, id, got, split) =>
      if id in p.res && BucketKey(p.res[id].key) == slot.key && Live(p, slot.key, at) && slot.axis in TokenAxes(split)
      then Some(got.At(slot.axis) - Clamp(p.res[id].last.overshoot.At(slot.axis))) else None
    case _ => None
  }

  // ----- one step of a pool

  /** A step that starts within the chunk ends beyond it exactly when what it brings does not fit on top of what
      is there and unclaimed. */
  predicate FillsRight(th: Thread, pool: Pool, failOpen: bool, input: Input, slot: Slot, others: nat) {
    var (th', pool') := PoolStep(th, pool, failOpen, input);
    var brings := Brings(th, pool, input.clockMs, slot);
    var chunk := pool.cfg.chunk.At(slot.axis);
    pool'.cfg == pool.cfg &&
    (LeaseOf(pool.leases, slot) - others - Claim(th, slot) <= chunk ==>
       (LeaseOf(pool'.leases, slot) - others - Claim(th', slot) > chunk <==>
        brings.Some? && LevelOf(pool, input.clockMs, slot) - others - Claim(th, slot) + brings.value > chunk))
  }

  ghost predicate CanStep(th: Thread, pool: Pool, failOpen: bool) {
    SoundThread(th) && SoundPod(Up(pool, failOpen)) && pool.cfg.chunk.NonNegative()
  }

  lemma DebitFills(th: Thread, pool: Pool, failOpen: bool, input: Input, slot: Slot, others: nat)
    requires th.Debiting? && CanStep(th, pool, failOpen)
    ensures FillsRight(th, pool, failOpen, input, slot, others)
  {
    hide WellKeyed, Shown, SoundReservation;
    ByAxisNonNegative(pool.cfg.chunk, slot.axis);
    ByAxisNonNegative(th.cost, slot.axis);
  }

  lemma CreditFills(th: Thread, pool: Pool, failOpen: bool, input: Input, slot: Slot, others: nat)
    requires (th.Crediting? || th.CreditingDeficit?) && CanStep(th, pool, failOpen)
    ensures FillsRight(th, pool, failOpen, input, slot, others)
  {
    hide WellKeyed, SoundReservation, Masked;
    ByAxisNonNegative(pool.cfg.chunk, slot.axis);
  }

  lemma SettleFills(th: Thread, pool: Pool, failOpen: bool, input: Input, slot: Slot, others: nat)
    requires th.Settling? && CanStep(th, pool, failOpen)
    ensures FillsRight(th, pool, failOpen, input, slot, others)
  {
    hide WellKeyed, SoundReservation, SettleLocal, LeaseOf;
    ByAxisNonNegative(pool.cfg.chunk, slot.axis);
    LevelIsLess(pool, input.clockMs, slot);
    SettledLease(pool, input.clockMs, th.id, th.split, th.actual, slot);
  }

  lemma LevelIsLess(p: Pool, nowMs: int, slot: Slot)
    requires Sound(p)
    ensures 0 <= LevelOf(p, nowMs, slot) <= LeaseOf(p.leases, slot)
  {
    if slot.key in p.leases {
      ByAxisNonNegative(p.leases[slot.key].balance, slot.axis);
    }
  }

  /** What a local settlement leaves in the lease. */
  lemma SettledLease(p: Pool, nowMs: int, id: string, split: bool, actual: Amounts, slot: Slot)
    requires Sound(p)
    ensures var q := SettleLocal(p, nowMs, id, split, actual).0;
            var level := LevelOf(p, nowMs, slot);
            q.cfg == p.cfg &&
            if ActsOn(p, nowMs, id, split) && BucketKey(p.res[id].key) == slot.key then
              LeaseOf(q.leases, slot) ==
                if slot.axis in TokenAxes(split)
                then Max(0, level + p.res[id].reserved.At(slot.axis) - Clamp(actual.At(slot.axis))) else level
            else LeaseOf(q.leases, slot) == LeaseOf(p.leases, slot)
  {
    hide Shown, Swept;
    if ActsOn(p, nowMs, id, split) {
      SettledBalance(p, nowMs, id, split, actual, slot.axis);
      SweptLeases(PurgedPool(p, nowMs), BucketKey(p.res[id].key), nowMs, slot.key);
    }
  }

  lemma SweptLeases(p: Pool, k: string, nowMs: int, other: string)
    ensures var q := Swept(p, k, nowMs);
            other != k ==> (other in q.leases <==> other in p.leases) &&
                           (other in p.leases ==> q.leases[other] == p.leases[other])
    ensures Swept(p, k, nowMs).cfg == p.cfg
  {
  }

  lemma SettledBalance(p: Pool, nowMs: int, id: string, split: bool, actual: Amounts, a: Axis)
    requires Sound(p) && ActsOn(p, nowMs, id, split)
    ensures var q := SettleLocal(p, nowMs, id, split, actual).0;
            var k := BucketKey(p.res[id].key);
            var level := LevelOf(p, nowMs, Slot(a, k));
            k in q.leases && q.leases == Prepared(p, nowMs, k).leases[k := q.leases[k]] &&
            q.leases[k].balance.At(a) ==
              if a in TokenAxes(split) then Max(0, level + p.res[id].reserved.At(a) - Clamp(actual.At(a))) else level
  {
    hide SettleLocal, Prepared, Sound;
    var k := BucketKey(p.res[id].key);
    SettleShape(p, nowMs, id, split, actual);
    PreparedStock(p, nowMs, k, Slot(a, k));
    SoundParts(p, k, id);
  }

  lemma RefundFills(th: Thread, pool: Pool, failOpen: bool, input: Input, slot: Slot, others: nat)
    requires th.Refunding? && CanStep(th, pool, failOpen)
    ensures FillsRight(th, pool, failOpen, input, slot, others)
  {
    hide WellKeyed, SoundReservation;
    ByAxisNonNegative(pool.cfg.chunk, slot.axis);
  }

  lemma ApplyFills(th: Thread, pool: Pool, failOpen: bool, input: Input, slot: Slot, others: nat)
    requires th.Applying? && CanStep(th, pool, failOpen)
    ensures FillsRight(th, pool, failOpen, input, slot, others)
  {
    hide WellKeyed, SoundReservation;
    ByAxisNonNegative(pool.cfg.chunk, slot.axis);
  }

  lemma OtherFills(th: Thread, pool: Pool, failOpen: bool, input: Input, slot: Slot, others: nat)
    requires (th.Closing? || th.Consulting? || th.Noting? || th.Peeking? || th.LookingUp?) &&
             CanStep(th, pool, failOpen)
    ensures FillsRight(th, pool, failOpen, input, slot, others)
  {
    hide WellKeyed, SoundReservation, TryDebit, SettleLocal, ApplyDeficit, RefundLocal, CreditLease;
    ByAxisNonNegative(pool.cfg.chunk, slot.axis);
  }

  lemma PoolStepFills(th: Thread, pool: Pool, failOpen: bool, input: Input, slot: Slot, others: nat)
    requires Owner(th).Some? && !AtStore(th) && CanStep(th, pool, failOpen)
    ensures FillsRight(th, pool, failOpen, input, slot, others)
  {
    hide FillsRight, CanStep;
    match th {
      case Debiting(_, _, _, _, _, _) => DebitFills(th, pool, failOpen, input, slot, others);
      case Crediting(_, _, _, _, _, _) => CreditFills(th, pool, failOpen, input, slot, others);
      case CreditingDeficit(_, _, _, _, _, _) => CreditFills(th, pool, failOpen, input, slot, others);
      case Settling(_, _, _, _, _, _) => SettleFills(th, pool, failOpen, input, slot, others);
      case Refunding(_, _) => RefundFills(th, pool, failOpen, input, slot, others);
      case Applying(_, _, _, _) => ApplyFills(th, pool, failOpen, input, slot, others);
      case Closing(_) => OtherFills(th, pool, failOpen, input, slot, others);
      case Consulting(_, _, _, _, _) => OtherFills(th, pool, failOpen, input, slot, others);
      case Noting(_, _, _, _) => OtherFills(th, pool, failOpen, input, slot, others);
      case Peeking(_, _, _, _) => OtherFills(th, pool, failOpen, input, slot, others);
      case LookingUp(_, _, _) => OtherFills(th, pool, failOpen, input, slot, others);
    }
  }

  // ----- the fleet

  ghost predicate PodWithin(f: Fleet, pod: nat, slot: Slot) {
    IsUp(f, pod) ==>
      LeaseOf(f.pods[pod].pool.leases, slot) - Claimed(f, pod, slot) <= f.pods[pod].pool.cfg.chunk.At(slot.axis)
  }

  /** Every pod keeps its unclaimed credits within its chunk. */
  ghost predicate Within(f: Fleet, slot: Slot) {
    forall pod | pod in f.pods :: PodWithin(f, pod, slot)
  }

  /** What the event brings to the pod's lease does not fit. */
  ghost predicate Overfills(f: Fleet, e: Event, pod: nat, slot: Slot) {
    e.Step? && e.thread in f.threads && IsUp(f, pod) &&
    var th := f.threads[e.thread];
    Owner(th) == Some(pod) && !AtStore(th) &&
    var p := f.pods[pod].pool;
    var brings := Brings(th, p, e.input.clockMs, slot);
    brings.Some? &&
    LevelOf(p, e.input.clockMs, slot) - Claimed(f, pod, slot) + brings.value > p.cfg.chunk.At(slot.axis)
  }

  ghost predicate Configured(f: Fleet) {
    forall pod | pod in f.pods && f.pods[pod].Up? :: f.pods[pod].pool.cfg.chunk.NonNegative()
  }

  lemma ClaimIsNonNegative(th: Thread, slot: Slot)
    requires SoundThread(th)
    ensures Claim(th, slot) >= 0
  {
    if th.Debiting? {
      ByAxisNonNegative(th.cost, slot.axis);
    }
  }

  /** What the other threads of a pod claim. */
  lemma OthersClaim(f: Fleet, t: nat, th: Thread, pod: nat, slot: Slot)
    requires SoundFleet(f)
    ensures Claimed(f, pod, slot) >= 0
    ensures t in f.threads ==> Claimed(f, pod, slot) >= ClaimOn(pod, slot)(f.threads[t])
    ensures Claimed(f.(threads := f.threads[t := th]), pod, slot) ==
            Claimed(f, pod, slot) +
              ClaimOn(pod, slot)(th) - (if t in f.threads then ClaimOn(pod, slot)(f.threads[t]) else 0)
  {
    hide Claim, SoundThread, SoundPod, WellFormed;
    forall i | i in f.threads
      ensures ClaimOn(pod, slot)(f.threads[i]) >= 0
    {
      ClaimIsNonNegative(f.threads[i], slot);
    }
    SumNonNegative(f.threads, ClaimOn(pod, slot));
    SumUpdate(f.threads, t, th, ClaimOn(pod, slot));
    if t in f.threads {
      SumWithout(f.threads, t, ClaimOn(pod, slot));
      SumNonNegative(f.threads - {t}, ClaimOn(pod, slot));
    }
  }

  lemma StaysHome(th: Thread, pool: Pool, failOpen: bool, books: Books, nowMs: int, input: Input)
    ensures var th' := PoolStep(th, pool, failOpen, input).0; Owner(th').Some? ==> Owner(th') == Owner(th)
    ensures var th' := StoreStep(th, books, nowMs, input).0; Owner(th').Some? ==> Owner(th') == Owner(th)
  {
    hide TryDebit, SettleLocal, ApplyDeficit, Snapshot, RefundLocal, Borrow, Exec, DenyGet, DenySet, Has, CreditLease,
         GetReservation;
  }

  lemma StoreStepsClaimNothing(th: Thread, books: Books, nowMs: int, input: Input, slot: Slot)
    requires AtStore(th)
    ensures Claim(th, slot) == 0 && Claim(StoreStep(th, books, nowMs, input).0, slot) == 0
  {
    hide Borrow, Exec;
  }

  lemma StartsClaimNothing(start: Thread, slot: Slot)
    requires IsStart(start)
    ensures Claim(start, slot) == 0 && Claim(Idle, slot) == 0
  {
  }

  lemma FreshPodIsWithin(cfg: Config, slot: Slot)
    ensures var p := EmptyPool(cfg);
            p.cfg.chunk.NonNegative() && p.cfg.chunk.At(slot.axis) >= 0 && LeaseOf(p.leases, slot) == 0
  {
    ByAxis(Normalized(cfg).chunk);
  }

  lemma SamePodWithin(f: Fleet, g: Fleet, pod: nat, slot: Slot)
    requires f.threads == g.threads && pod in f.pods && pod in g.pods && f.pods[pod] == g.pods[pod]
    ensures PodWithin(f, pod, slot) <==> PodWithin(g, pod, slot)
  {
    hide LeaseOf;
  }

  /** One event and one pod that keeps its unclaimed credits within its chunk: afterwards it still does, unless the
      event overfills its lease, and then it does not. */
  lemma OverfillIff(f: Fleet, e: Event, pod: nat, slot: Slot)
    requires SoundFleet(f) && Configured(f) && (pod in f.pods ==> PodWithin(f, pod, slot))
    ensures pod in Next(f, e).pods ==> (PodWithin(Next(f, e), pod, slot) <==> !Overfills(f, e, pod, slot))
    ensures pod in f.pods ==> pod in Next(f, e).pods
  {
    hide SoundFleet, SoundThread, SoundPod, PoolStep, StoreStep, Claimed, Claim, Brings, LeaseOf, LevelOf, IsStart;
    match e {
      case Tick(_) =>
        if pod in f.pods {
          SamePodWithin(f, Next(f, e), pod, slot);
        }
      case Launch(started, cfg, failOpen) =>
        FreshPodIsWithin(cfg, slot);
        OthersClaim(f, 0, Idle, pod, slot);
        SameClaims(f, Next(f, e), pod, slot);
      case Crash(crashed) => SameClaims(f, Next(f, e), pod, slot);
      case Begin(t, start) =>
        if IsStart(start) && (t in f.threads ==> f.threads[t].Idle?) {
          StartsClaimNothing(start, slot);
          OthersClaim(f, t, start, pod, slot);
        }
      case Step(t, input) =>
        if t in f.threads {
          StepOverfill(f, t, input, pod, slot);
        }
    }
  }

  lemma SameClaims(f: Fleet, g: Fleet, pod: nat, slot: Slot)
    requires f.threads == g.threads
    ensures Claimed(f, pod, slot) == Claimed(g, pod, slot)
  {
  }

  lemma StepOverfill(f: Fleet, t: nat, input: Input, pod: nat, slot: Slot)
    requires SoundFleet(f) && Configured(f) && t in f.threads && (pod in f.pods ==> PodWithin(f, pod, slot))
    ensures var g := Next(f, Step(t, input));
            pod in g.pods ==> (PodWithin(g, pod, slot) <==> !Overfills(f, Step(t, input), pod, slot))
  {
    hide SoundThread, SoundPod, PoolStep, StoreStep, Claimed, Claim, Brings, LeaseOf, LevelOf, WellFormed, FillsRight;
    var th := f.threads[t];
    var g := Next(f, Step(t, input));
    if Owner(th).Some? && !IsUp(f, th.pod) {
      OthersClaim(f, t, Idle, pod, slot);
      SameClaims(f.(threads := f.threads[t := Idle]), g, pod, slot);
    } else if AtStore(th) {
      var th' := StoreStep(th, f.store, f.nowMs, input).0;
      StoreStepsClaimNothing(th, f.store, f.nowMs, input, slot);
      OthersClaim(f, t, th', pod, slot);
      SameClaims(f.(threads := f.threads[t := th']), g, pod, slot);
    } else if Owner(th).Some? {
      var home := f.pods[th.pod];
      var th' := PoolStep(th, home.pool, home.failOpen, input).0;
      StaysHome(th, home.pool, home.failOpen, f.store, f.nowMs, input);
      OthersClaim(f, t, th', pod, slot);
      SameClaims(f.(threads := f.threads[t := th']), g, pod, slot);
      if th.pod == pod {
        PoolStepFills(th, home.pool, home.failOpen, input, slot, Claimed(f, pod, slot) - Claim(th, slot));
        StepShows(f, t, input, slot);
        assert ClaimOn(pod, slot)(th') == Claim(th', slot) by { NobodyClaimsNothing(th', slot); }
      } else {
        assert Claimed(g, pod, slot) == Claimed(f, pod, slot);
        assert pod in f.pods ==> g.pods[pod] == f.pods[pod];
      }
    }
  }

  lemma NobodyClaimsNothing(th: Thread, slot: Slot)
    ensures Owner(th).None? ==> Claim(th, slot) == 0
  {
  }

  /** FillsRight, read in the fleet. */
  lemma StepShows(f: Fleet, t: nat, input: Input, slot: Slot)
    requires t in f.threads && Owner(f.threads[t]).Some? && !AtStore(f.threads[t]) && IsUp(f, f.threads[t].pod)
    requires var th := f.threads[t];
             var pool := f.pods[th.pod].pool;
             Claimed(f, th.pod, slot) >= Claim(th, slot) &&
             FillsRight(th, pool, f.pods[th.pod].failOpen, input, slot, Claimed(f, th.pod, slot) - Claim(th, slot))
    requires PodWithin(f, f.threads[t].pod, slot)
    ensures var th := f.threads[t];
            var (th', pool') := PoolStep(th, f.pods[th.pod].pool, f.pods[th.pod].failOpen, input);
            (LeaseOf(pool'.leases, slot) - Claimed(f, th.pod, slot) + Claim(th, slot) - Claim(th', slot) <=
               pool'.cfg.chunk.At(slot.axis)) <==> !Overfills(f, Step(t, input), th.pod, slot)
  {
    hide PoolStep, Claimed, Claim, Brings, LeaseOf, LevelOf;
  }

  // ----- runs

  lemma StaysConfigured(f: Fleet, e: Event, slot: Slot)
    requires SoundFleet(f) && Configured(f)
    ensures Configured(Next(f, e))
  {
    hide SoundThread, SoundPod, PoolStep, StoreStep, IsStart, WellFormed, Brings, LevelOf, LeaseOf, Claim;
    if e.Launch? {
      FreshPodIsWithin(e.cfg, slot);
    }
    if e.Step? && e.thread in f.threads {
      var th := f.threads[e.thread];
      if Owner(th).Some? && !AtStore(th) && IsUp(f, th.pod) {
        PoolStepFills(th, f.pods[th.pod].pool, f.pods[th.pod].failOpen, e.input, slot, 0);
      }
    }
  }

  ghost predicate NeverOverfills(f: Fleet, run: seq<Event>, slot: Slot)
    decreases |run|
  {
    run == [] ||
      ((forall pod | pod in f.pods :: !Overfills(f, run[0], pod, slot)) &&
       NeverOverfills(Next(f, run[0]), run[1..], slot))
  }

  /** Within at every state of the run. */
  ghost predicate AlwaysWithin(f: Fleet, run: seq<Event>, slot: Slot)
    decreases |run|
  {
    Within(f, slot) && (run == [] || AlwaysWithin(Next(f, run[0]), run[1..], slot))
  }

  lemma EventWithinIff(f: Fleet, e: Event, slot: Slot)
    requires SoundFleet(f) && Configured(f) && Within(f, slot)
    ensures Within(Next(f, e), slot) <==> forall pod | pod in f.pods :: !Overfills(f, e, pod, slot)
  {
    hide SoundFleet, Configured, PodWithin, Overfills, Next;
    forall pod | pod in f.pods || pod in Next(f, e).pods
      ensures pod in f.pods ==> pod in Next(f, e).pods
      ensures pod in Next(f, e).pods ==> (PodWithin(Next(f, e), pod, slot) <==> !Overfills(f, e, pod, slot))
      ensures pod !in f.pods ==> !Overfills(f, e, pod, slot)
    {
      OverfillIff(f, e, pod, slot);
      OnlyPodsOverfill(f, e, pod, slot);
    }
  }

  lemma OnlyPodsOverfill(f: Fleet, e: Event, pod: nat, slot: Slot)
    ensures Overfills(f, e, pod, slot) ==> pod in f.pods
  {
    hide Claimed, Brings, LevelOf;
  }

  /** Over every run from a fleet within its chunks, every pod keeps its unclaimed credits within its chunk in every
      state if and only if no event overfills a lease. */
  lemma {:induction false} WithinIff(f: Fleet, run: seq<Event>, slot: Slot)
    requires SoundFleet(f) && Configured(f) && Within(f, slot)
    ensures AlwaysWithin(f, run, slot) <==> NeverOverfills(f, run, slot)
    decreases |run|
  {
    hide SoundFleet, Configured, Within, Overfills, Next, Assets, Charge;
    if run != [] {
      EventWithinIff(f, run[0], slot);
      EventBalanced(f, run[0], slot);
      StaysConfigured(f, run[0], slot);
      if Within(Next(f, run[0]), slot) {
        WithinIff(Next(f, run[0]), run[1..], slot);
      }
    }
  }

  lemma {:induction false} EndsWithin(f: Fleet, run: seq<Event>, slot: Slot)
    requires AlwaysWithin(f, run, slot)
    ensures Within(After(f, run), slot)
    decreases |run|
  {
    hide Within, Next;
    if run != [] {
      EndsWithin(Next(f, run[0]), run[1..], slot);
    }
  }

  // ----- pods times chunk

  /** The lease credits of all pods. */
  ghost function Unused(f: Fleet, slot: Slot): int {
    Sum(f.pods, LeasesIn(slot))
  }

  function OneIfUp(pod: Pod): int {
    if pod.Up? then 1 else 0
  }

  ghost function PodsUp(f: Fleet): int {
    Sum(f.pods, OneIfUp)
  }

  /** No thread is between the credit and the debit of its request. */
  predicate Settled(f: Fleet) {
    forall t | t in f.threads :: !(f.threads[t].Debiting? && f.threads[t].attempt.AfterBorrow?)
  }

  lemma SettledClaimsNothing(f: Fleet, pod: nat, slot: Slot)
    requires Settled(f)
    ensures Claimed(f, pod, slot) == 0
  {
    SumZero(f.threads, ClaimOn(pod, slot));
  }

  lemma ColdIsWithin(startMs: int, slot: Slot)
    ensures var f := ColdStart(startMs); SoundFleet(f) && Configured(f) && Within(f, slot)
  {
  }

  /** The documented bound, and what it takes: from a cold start, in every run in which no event overfills a lease,
      whenever no thread is between a credit and its debit the unused lease credits are at most the number of
      pods that are up times the chunk. */
  lemma PodsTimesChunk(startMs: int, run: seq<Event>, slot: Slot, chunk: nat)
    requires NeverOverfills(ColdStart(startMs), run, slot) && Settled(After(ColdStart(startMs), run))
    requires forall pod | pod in After(ColdStart(startMs), run).pods && After(ColdStart(startMs), run).pods[pod].Up? ::
               After(ColdStart(startMs), run).pods[pod].pool.cfg.chunk.At(slot.axis) <= chunk
    ensures var f := After(ColdStart(startMs), run); Unused(f, slot) <= chunk * PodsUp(f)
  {
    hide NeverOverfills, AlwaysWithin, SoundFleet, Configured, After, Claimed, LeaseOf;
    var f := After(ColdStart(startMs), run);
    ColdIsWithin(startMs, slot);
    WithinIff(ColdStart(startMs), run, slot);
    EndsWithin(ColdStart(startMs), run, slot);
    forall pod | pod in f.pods
      ensures LeasesIn(slot)(f.pods[pod]) <= chunk * OneIfUp(f.pods[pod])
    {
      SettledClaimsNothing(f, pod, slot);
      assert PodWithin(f, pod, slot);
    }
    SumAtMost(f.pods, LeasesIn(slot), OneIfUp, chunk);
  }

  /** And it takes no less: an event that overfills the lease of a fleet's only pod, and leaves no thread between a
      credit and its debit, leaves more unused credits than one chunk. */
  lemma OverfillBreaksTheBound(f: Fleet, e: Event, pod: nat, slot: Slot)
    requires SoundFleet(f) && Configured(f) && Within(f, slot) && f.pods.Keys == {pod}
    requires Overfills(f, e, pod, slot) && Settled(Next(f, e))
    ensures Unused(Next(f, e), slot) > f.pods[pod].pool.cfg.chunk.At(slot.axis)
  {
    hide SoundFleet, Configured, Claimed, Brings, LevelOf, LeaseOf, PoolStep, StoreStep;
    var g := Next(f, e);
    assert PodWithin(f, pod, slot);
    OverfillIff(f, e, pod, slot);
    SettledClaimsNothing(g, pod, slot);
    OverfillKeepsConfig(f, e, pod, slot);
    SumWithout(g.pods, pod, LeasesIn(slot));
    assert g.pods - {pod} == map[];
  }

  lemma OverfillKeepsConfig(f: Fleet, e: Event, pod: nat, slot: Slot)
    requires SoundFleet(f) && Configured(f) && Overfills(f, e, pod, slot)
    ensures var g := Next(f, e);
            g.pods.Keys == f.pods.Keys && IsUp(g, pod) && g.pods[pod].pool.cfg == f.pods[pod].pool.cfg
  {
    hide SoundThread, SoundPod, PoolStep, Claimed, Brings, LevelOf, LeaseOf, Claim, WellFormed;
    var th := f.threads[e.thread];
    PoolStepFills(th, f.pods[pod].pool, f.pods[pod].failOpen, e.input, slot, 0);
  }
}
