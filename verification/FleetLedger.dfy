/** The accounts of one bucket across a fleet, and the conservation laws every step keeps. */
module FleetLedger {
  import opened Quota
  import opened Bucket
  import opened StoreSpec
  import opened StoreLedger
  import opened PoolSpec
  import opened PoolLedger
  import opened Fleet
  import opened Sums

  /** What steps move on one bucket, as running totals. */
  datatype Account = Account(
    borrowed: int,   // granted by Borrow
    returned: int,   // given back by Return
    surplus: int,    // deficit grants applied a second time
    lapsed: int,     // lease balances that expired or crashed
    gone: int,       // holds of local reservations that expired, crashed or were overwritten
    dropped: int,    // credits lost between store and pool
    storeGone: int,  // holds of store reservations that expired or were overwritten
    admitted: int,   // reserved for requests that were told they are admitted
    refunded: int,   // given back by refunds
    unseen: int)     // reserved at the store for a request that never got the answer
  {
    function Plus(o: Account): Account {
      Account(borrowed + o.borrowed, returned + o.returned, surplus + o.surplus, lapsed + o.lapsed, gone + o.gone,
              dropped + o.dropped, storeGone + o.storeGone, admitted + o.admitted, refunded + o.refunded,
                unseen + o.unseen)
    }
  }

  const NOTHING := Account(0, 0, 0, 0, 0, 0, 0, 0, 0, 0)

  // ----- charges

  function StaleUnder(pool: Pool, key: Key, nowMs: int, slot: Slot): int {
    StaleBalance(pool, BucketKey(key), nowMs, slot)
  }

  /** What a pool step moves. */
  ghost function PoolCharge(th: Thread, pool: Pool, input: Input, slot: Slot): Account {
    var at := input.clockMs;
    match th
    case Debiting(_, key, limits, cost, id, _) =>
      var hit := TryDebit(pool, at, key, limits, cost, id).1.Some?;
      NOTHING.(lapsed := StaleUnder(pool, key, at, slot),
               gone := ExpiredHolds(pool, at, slot) + (if hit then OverwrittenHold(pool, at, id, slot) else 0),
               admitted := if hit && Touches(slot, key, Split(limits)) then cost.At(slot.axis) else 0)
    case Crediting(_, key, _, _, _, _) => NOTHING.(lapsed := StaleUnder(pool, key, at, slot))
    case Peeking(_, key, _, _) => NOTHING.(lapsed := StaleUnder(pool, key, at, slot))
    case LookingUp(_, _, _) => NOTHING.(gone := ExpiredHolds(pool, at, slot))
    case Settling(_, id, _, _, split, _) =>
      NOTHING.(gone := ExpiredHolds(pool, at, slot),
               lapsed := if ActsOn(pool, at, id, split) then StaleUnder(pool, pool.res[id].key, at, slot) else 0)
    case CreditingDeficit(_, _, key, _, _, _) => NOTHING.(lapsed := StaleUnder(pool, key, at, slot))
    case Applying(_, id, got, split) =>
      NOTHING.(surplus := AppliedGrant(pool, at, id, split, got, slot),
               lapsed := if id in pool.res then StaleUnder(pool, pool.res[id].key, at, slot) else 0)
    case Refunding(_, id) =>
      var acts := id in pool.res && ActsOn(pool, at, id, pool.res[id].split);
      NOTHING.(gone := ExpiredHolds(pool, at, slot),
               lapsed := if acts then StaleUnder(pool, pool.res[id].key, at, slot) else 0,
               refunded := if acts then HoldOn(slot)(pool.res[id]) else 0)
    case _ => NOTHING
  }

  /** What a store step moves. */
  ghost function StoreCharge(th: Thread, books: Books, nowMs: int, input: Input, slot: Slot): Account {
    var call := CallOf(th, input);
    if call.None? then NOTHING
    else if th.Returning? then
      var back := if input.fault.NotSent? then 0 else -Flow(books, nowMs, call.value, slot);
      NOTHING.(returned := back,
               dropped := (if input.pick == slot.key then th.pending[input.pick].balance.At(slot.axis) else 0) - back)
    else if input.fault.NotSent? then NOTHING
    else
      var flow := Flow(books, nowMs, call.value, slot);
      if th.Calling? then
        NOTHING.(storeGone := Forgotten(books, nowMs, call.value, slot),
                 admitted := if call.value.CheckCall? && input.fault.NoFault? then flow else 0,
                 unseen := if call.value.CheckCall? && input.fault.ReplyLost? then flow else 0,
                 refunded := if call.value.RefundCall? then -flow else 0)
      else NOTHING.(borrowed := flow, dropped := if input.fault.ReplyLost? then flow else 0)
  }

  function InFlight(th: Thread, slot: Slot): int {
    match th
    case Crediting(_, key, _, _, _, got) => if BucketKey(key) == slot.key then got.At(slot.axis) else 0
    case CreditingDeficit(_, _, key, _, got, _) => if BucketKey(key) == slot.key then got.At(slot.axis) else 0
    case Returning(_, pending) => LeaseOf(pending, slot)
    case _ => 0
  }

  ghost function Charge(f: Fleet, e: Event, slot: Slot): Account {
    match e
    case Tick(_) => NOTHING
    case Launch(_, _, _) => NOTHING
    case Begin(_, _) => NOTHING
    case Crash(pod) =>
      if IsUp(f, pod) then
        NOTHING.(lapsed := LeaseOf(f.pods[pod].pool.leases, slot), gone := Holds(f.pods[pod].pool.res, slot))
      else NOTHING
    case Step(t, input) =>
      if t !in f.threads then NOTHING else
      var th := f.threads[t];
      if Owner(th).Some? && !IsUp(f, th.pod) then NOTHING.(dropped := InFlight(th, slot))
      else if AtStore(th) then StoreCharge(th, f.store, f.nowMs, input, slot)
      else if Owner(th).Some? then PoolCharge(th, f.pods[th.pod].pool, input, slot)
      else NOTHING
  }

  /** What a whole run moves. */
  ghost function Total(f: Fleet, run: seq<Event>, slot: Slot): Account
    decreases |run|
  {
    if run == [] then NOTHING else Charge(f, run[0], slot).Plus(Total(Next(f, run[0]), run[1..], slot))
  }

  // ----- what the fleet holds

  ghost function StockIn(slot: Slot): Pod -> int {
    (pod: Pod) => if pod.Up? then Stock(pod.pool, slot) else 0
  }

  ghost function LeasesIn(slot: Slot): Pod -> int {
    (pod: Pod) => if pod.Up? then LeaseOf(pod.pool.leases, slot) else 0
  }

  ghost function FlightOf(slot: Slot): Thread -> int {
    (th: Thread) => InFlight(th, slot)
  }

  /** Lease balances and reservation holds of all pods, and credits in flight. */
  ghost function Assets(f: Fleet, slot: Slot): int {
    Sum(f.pods, StockIn(slot)) + Sum(f.threads, FlightOf(slot))
  }

  /** Lease balances of all pods and credits in flight: what can still be spent without the store. */
  ghost function Outstanding(f: Fleet, slot: Slot): int {
    Sum(f.pods, LeasesIn(slot)) + Sum(f.threads, FlightOf(slot))
  }

  // ----- what stays true

  predicate WellKeyed(k: string) {
    BucketKey(SplitKey(k)) == k
  }

  lemma FirstNulFinds(k: string, from: nat, i: nat)
    requires from <= i < |k| && k[i] == '\0' && forall j | from <= j < i :: k[j] != '\0'
    ensures FirstNul(k, from) == i
    decreases i - from
  {
  }

  /** Cutting a map key at its first NUL and joining it again gives the same map key, whatever the subject. */
  lemma KeysComeBack(key: Key)
    ensures WellKeyed(BucketKey(key))
  {
    var k := BucketKey(key);
    var i := FirstNul(k, 0);
    assert k[|key.subject|] == '\0';
    assert i <= |key.subject|;
    assert k == k[..i] + "\0" + k[i + 1..];
    assert |k[i + 1..]| >= 1;
  }

  ghost predicate SoundPod(pod: Pod) {
    pod.Up? ==> Sound(pod.pool) && forall k | k in pod.pool.leases :: WellKeyed(k)
  }

  ghost predicate SoundThread(th: Thread) {
    match th
    case Debiting(_, _, _, cost, _, _) => cost.NonNegative()
    case Borrowing(_, _, _, cost, _, _, _) => cost.NonNegative()
    case Crediting(_, _, _, cost, _, got) => cost.NonNegative() && got.NonNegative()
    case Peeking(_, _, _, cost) => cost.NonNegative()
    case Settling(_, _, _, limits, split, _) => split == Split(limits)
    case Covering(_, _, _, limits, _, split) => split == Split(limits)
    case CreditingDeficit(_, _, _, limits, got, split) => got.NonNegative() && got == Masked(split, got)
    case Applying(_, _, got, _) => got.NonNegative()
    case Returning(_, pending) => forall k | k in pending :: pending[k].balance.NonNegative() && WellKeyed(k)
    case Calling(call) => !call.BorrowCall? && !call.ReturnCall?
    case _ => true
  }

  ghost predicate SoundFleet(f: Fleet) {
    WellFormed(f.store) &&
    (forall pod | pod in f.pods :: SoundPod(f.pods[pod])) &&
    (forall t | t in f.threads :: SoundThread(f.threads[t]))
  }

  // ----- pool steps

  /** Everything a pool step adds to or takes from the pool and the thread is in its charge. */
  ghost predicate PoolBalanced(th: Thread, pool: Pool, failOpen: bool, input: Input, slot: Slot) {
    var (th', pool') := PoolStep(th, pool, failOpen, input);
    var c := PoolCharge(th, pool, input, slot);
    SoundThread(th') && SoundPod(Up(pool', failOpen)) &&
    Stock(pool', slot) + InFlight(th', slot) + c.lapsed + c.gone == Stock(pool, slot) + InFlight(th, slot) + c.surplus
  }

  lemma DebitBalanced(th: Thread, pool: Pool, failOpen: bool, input: Input, slot: Slot)
    requires th.Debiting? && SoundThread(th) && SoundPod(Up(pool, failOpen))
    ensures PoolBalanced(th, pool, failOpen, input, slot)
  {
    hide Stock, Sound, StaleBalance, ExpiredHolds, OverwrittenHold;
    DebitStock(pool, input.clockMs, th.key, th.limits, th.cost, th.id, slot);
    DebitKeepsKeys(pool, input.clockMs, th.key, th.limits, th.cost, th.id);
  }

  lemma DebitKeepsKeys(p: Pool, nowMs: int, key: Key, limits: Amounts, cost: Amounts, id: string)
    ensures TryDebit(p, nowMs, key, limits, cost, id).0.leases.Keys <= p.leases.Keys
  {
  }

  lemma CreditBalanced(th: Thread, pool: Pool, failOpen: bool, input: Input, slot: Slot)
    requires (th.Crediting? || th.CreditingDeficit?) && SoundThread(th) && SoundPod(Up(pool, failOpen))
    ensures PoolBalanced(th, pool, failOpen, input, slot)
  {
    hide Stock, Sound, StaleBalance;
    KeysComeBack(th.key);
    CreditStock(pool, input.clockMs, th.key, th.limits, th.got, slot);
  }

  lemma LookupBalanced(th: Thread, pool: Pool, failOpen: bool, input: Input, slot: Slot)
    requires (th.Peeking? || th.LookingUp?) && SoundThread(th) && SoundPod(Up(pool, failOpen))
    ensures PoolBalanced(th, pool, failOpen, input, slot)
  {
    hide Stock, StaleBalance, ExpiredHolds;
    PurgeStock(pool, input.clockMs, slot);
    if th.Peeking? {
      SweepStock(pool, BucketKey(th.key), input.clockMs, slot);
    }
  }

  lemma SettleBalanced(th: Thread, pool: Pool, failOpen: bool, input: Input, slot: Slot)
    requires th.Settling? && SoundThread(th) && SoundPod(Up(pool, failOpen))
    ensures PoolBalanced(th, pool, failOpen, input, slot)
  {
    hide Stock, Sound, StaleBalance, ExpiredHolds, SettleLocal;
    SettleStock(pool, input.clockMs, th.id, th.split, th.actual, slot);
    SettleKeepsKeys(pool, input.clockMs, th.id, th.split, th.actual);
  }

  lemma SettleKeepsKeys(p: Pool, nowMs: int, id: string, split: bool, actual: Amounts)
    requires forall k | k in p.leases :: WellKeyed(k)
    ensures forall k | k in SettleLocal(p, nowMs, id, split, actual).0.leases :: WellKeyed(k)
  {
    hide WellKeyed, LocalDelta, Shown;
    if id in p.res {
      KeysComeBack(p.res[id].key);
    }
  }

  lemma RefundBalanced(th: Thread, pool: Pool, failOpen: bool, input: Input, slot: Slot)
    requires th.Refunding? && SoundThread(th) && SoundPod(Up(pool, failOpen))
    ensures PoolBalanced(th, pool, failOpen, input, slot)
  {
    hide Stock, Sound, StaleBalance, ExpiredHolds, WellKeyed;
    RefundStock(pool, input.clockMs, th.id, slot);
    if th.id in pool.res {
      KeysComeBack(pool.res[th.id].key);
    }
  }

  lemma ApplyBalanced(th: Thread, pool: Pool, failOpen: bool, input: Input, slot: Slot)
    requires th.Applying? && SoundThread(th) && SoundPod(Up(pool, failOpen))
    ensures PoolBalanced(th, pool, failOpen, input, slot)
  {
    hide Stock, Sound, StaleBalance, AppliedGrant, WellKeyed, Absorb;
    ApplyStock(pool, input.clockMs, th.id, th.split, th.got, slot);
  }

  lemma CloseBalanced(th: Thread, pool: Pool, failOpen: bool, input: Input, slot: Slot)
    requires th.Closing? && SoundThread(th) && SoundPod(Up(pool, failOpen))
    ensures PoolBalanced(th, pool, failOpen, input, slot)
  {
    hide Stock, WellKeyed;
    SnapshotStock(pool, input.clockMs, slot);
  }

  lemma DenyBalanced(th: Thread, pool: Pool, failOpen: bool, input: Input, slot: Slot)
    requires (th.Consulting? || th.Noting?) && SoundThread(th) && SoundPod(Up(pool, failOpen))
    ensures PoolBalanced(th, pool, failOpen, input, slot)
  {
    hide WellKeyed;
  }

  lemma PoolStepBalanced(th: Thread, pool: Pool, failOpen: bool, input: Input, slot: Slot)
    requires Owner(th).Some? && !AtStore(th) && SoundThread(th) && SoundPod(Up(pool, failOpen))
    ensures PoolBalanced(th, pool, failOpen, input, slot)
  {
    hide PoolBalanced, SoundThread, SoundPod;
    match th {
      case Consulting(_, _, _, _, _) => DenyBalanced(th, pool, failOpen, input, slot);
      case Debiting(_, _, _, _, _, _) => DebitBalanced(th, pool, failOpen, input, slot);
      case Crediting(_, _, _, _, _, _) => CreditBalanced(th, pool, failOpen, input, slot);
      case Noting(_, _, _, _) => DenyBalanced(th, pool, failOpen, input, slot);
      case Peeking(_, _, _, _) => LookupBalanced(th, pool, failOpen, input, slot);
      case LookingUp(_, _, _) => LookupBalanced(th, pool, failOpen, input, slot);
      case Settling(_, _, _, _, _, _) => SettleBalanced(th, pool, failOpen, input, slot);
      case CreditingDeficit(_, _, _, _, _, _) => CreditBalanced(th, pool, failOpen, input, slot);
      case Applying(_, _, _, _) => ApplyBalanced(th, pool, failOpen, input, slot);
      case Refunding(_, _) => RefundBalanced(th, pool, failOpen, input, slot);
      case Closing(_) => CloseBalanced(th, pool, failOpen, input, slot);
    }
  }

  // ----- store steps

  /** A grant is never negative and names only the axes of its mode. */
  lemma GrantIsSound(b: Books, nowMs: int, key: Key, limits: Amounts, spec: BorrowSpec)
    ensures var reply := Borrow(b, nowMs, key, limits, spec).1;
            reply.Ok? ==> reply.value.got.NonNegative() && reply.value.got == Masked(Split(limits), reply.value.got) &&
                          (!reply.value.allowed ==> reply.value.got == ZERO)
  {
    hide TryConsume, LoadBucket, Saved, Shown, Whole;
  }

  /** Credits leave the store only as grants and come back only as returns; what a fault destroys is counted. */
  ghost predicate StoreBalanced(th: Thread, books: Books, nowMs: int, input: Input, slot: Slot) {
    var (th', books') := StoreStep(th, books, nowMs, input);
    var c := StoreCharge(th, books, nowMs, input, slot);
    SoundThread(th') && WellFormed(books') &&
    InFlight(th', slot) + c.returned + c.dropped == InFlight(th, slot) + c.borrowed &&
    c.dropped >= 0 && c.unseen >= 0 && c.lapsed == c.gone == c.surplus == 0 &&
    (slot.axis == Rpm ==>
       Holds(books'.res, slot) + c.storeGone == Holds(books.res, slot) + c.admitted + c.unseen - c.refunded) &&
    (!th.Calling? ==> Holds(books'.res, slot) == Holds(books.res, slot))
  }

  lemma BorrowBalanced(th: Thread, books: Books, nowMs: int, input: Input, slot: Slot)
    requires (th.Borrowing? || th.Covering?) && SoundThread(th) && WellFormed(books)
    ensures StoreBalanced(th, books, nowMs, input, slot)
  {
    hide Borrow, Holds;
    var call := CallOf(th, input).value;
    GrantIsSound(books, nowMs, call.key, call.limits, call.spec);
    HoldsFollowFlow(books, nowMs, call, slot);
  }

  lemma ReturnBalanced(th: Thread, books: Books, nowMs: int, input: Input, slot: Slot)
    requires th.Returning? && SoundThread(th) && WellFormed(books)
    ensures StoreBalanced(th, books, nowMs, input, slot)
  {
    hide Return, Holds, SplitKey;
    if input.pick in th.pending {
      HoldsFollowFlow(books, nowMs, CallOf(th, input).value, slot);
      ByAxisNonNegative(th.pending[input.pick].balance, slot.axis);
    }
  }

  lemma ByAxisNonNegative(x: Amounts, a: Axis)
    requires x.NonNegative()
    ensures x.At(a) >= 0
  {
  }

  lemma CallBalanced(th: Thread, books: Books, nowMs: int, input: Input, slot: Slot)
    requires th.Calling? && SoundThread(th) && WellFormed(books)
    ensures StoreBalanced(th, books, nowMs, input, slot)
  {
    hide Check, Settle, Refund, Holds, Forgotten;
    HoldsFollowFlow(books, nowMs, th.call, slot);
  }

  lemma StoreStepBalanced(th: Thread, books: Books, nowMs: int, input: Input, slot: Slot)
    requires AtStore(th) && SoundThread(th) && WellFormed(books)
    ensures StoreBalanced(th, books, nowMs, input, slot)
  {
    hide StoreBalanced, SoundThread;
    match th {
      case Borrowing(_, _, _, _, _, _, _) => BorrowBalanced(th, books, nowMs, input, slot);
      case Covering(_, _, _, _, _, _) => BorrowBalanced(th, books, nowMs, input, slot);
      case Returning(_, _) => ReturnBalanced(th, books, nowMs, input, slot);
      case Calling(_) => CallBalanced(th, books, nowMs, input, slot);
    }
  }

  // ----- the whole fleet

  /** What a charge adds to what the fleet holds. */
  function NetGain(c: Account): int {
    c.borrowed + c.surplus - c.returned - c.lapsed - c.gone - c.dropped
  }

  lemma AssetsUpdate(f: Fleet, t: nat, th: Thread, slot: Slot)
    requires t in f.threads
    ensures Assets(f.(threads := f.threads[t := th]), slot) == Assets(f, slot) +
            InFlight(th, slot) - InFlight(f.threads[t], slot)
    ensures Outstanding(f.(threads := f.threads[t := th]), slot) ==
            Outstanding(f, slot) + InFlight(th, slot) - InFlight(f.threads[t], slot)
  {
    SumUpdate(f.threads, t, th, FlightOf(slot));
  }

  lemma PodUpdate(f: Fleet, pod: nat, p: Pod, slot: Slot)
    requires pod in f.pods
    ensures Assets(f.(pods := f.pods[pod := p]), slot) == Assets(f, slot) +
            StockIn(slot)(p) - StockIn(slot)(f.pods[pod])
    ensures Outstanding(f.(pods := f.pods[pod := p]), slot) ==
            Outstanding(f, slot) + LeasesIn(slot)(p) - LeasesIn(slot)(f.pods[pod])
  {
    SumUpdate(f.pods, pod, p, StockIn(slot));
    SumUpdate(f.pods, pod, p, LeasesIn(slot));
  }

  lemma SoundUpdate(f: Fleet, t: nat, th: Thread)
    requires SoundFleet(f) && SoundThread(th)
    ensures SoundFleet(f.(threads := f.threads[t := th]))
  {
  }

  lemma SoundPodUpdate(f: Fleet, pod: nat, p: Pod)
    requires SoundFleet(f) && SoundPod(p)
    ensures SoundFleet(f.(pods := f.pods[pod := p]))
  {
  }

  lemma NewPod(f: Fleet, pod: nat, p: Pod, slot: Slot)
    requires pod !in f.pods
    ensures Assets(f.(pods := f.pods[pod := p]), slot) == Assets(f, slot) + StockIn(slot)(p)
    ensures Outstanding(f.(pods := f.pods[pod := p]), slot) == Outstanding(f, slot) + LeasesIn(slot)(p)
  {
    SumUpdate(f.pods, pod, p, StockIn(slot));
    SumUpdate(f.pods, pod, p, LeasesIn(slot));
  }

  lemma EmptyPoolIsEmpty(cfg: Config, failOpen: bool, slot: Slot)
    ensures SoundPod(Up(EmptyPool(cfg), failOpen)) && Stock(EmptyPool(cfg), slot) == 0 &&
            LeaseOf(EmptyPool(cfg).leases, slot) == 0
  {
  }

  lemma BeginUpdate(f: Fleet, t: nat, start: Thread, slot: Slot)
    requires IsStart(start) && (t in f.threads ==> f.threads[t].Idle?)
    ensures SoundThread(start)
    ensures Assets(f.(threads := f.threads[t := start]), slot) == Assets(f, slot)
    ensures Outstanding(f.(threads := f.threads[t := start]), slot) == Outstanding(f, slot)
  {
    SumUpdate(f.threads, t, start, FlightOf(slot));
  }

  /** Every event of a sound fleet leaves a sound fleet, and changes what it holds by exactly its charge. */
  lemma EventBalanced(f: Fleet, e: Event, slot: Slot)
    requires SoundFleet(f)
    ensures SoundFleet(Next(f, e))
    ensures Assets(Next(f, e), slot) == Assets(f, slot) + NetGain(Charge(f, e, slot))
  {
    hide Assets, Outstanding, SoundThread, SoundPod, PoolStep, StoreStep, PoolCharge, StoreCharge, InFlight, WellFormed,
         IsStart;
    match e {
      case Tick(_) => SameHoldings(f, Next(f, e), slot);
      case Launch(pod, cfg, failOpen) =>
        if pod !in f.pods {
          EmptyPoolIsEmpty(cfg, failOpen, slot);
          NewPod(f, pod, Up(EmptyPool(cfg), failOpen), slot);
          SoundPodUpdate(f, pod, Up(EmptyPool(cfg), failOpen));
        }
      case Crash(pod) =>
        if IsUp(f, pod) {
          PodUpdate(f, pod, Down, slot);
          DownIsSound();
          SoundPodUpdate(f, pod, Down);
        }
      case Begin(t, start) =>
        if IsStart(start) && (t in f.threads ==> f.threads[t].Idle?) {
          BeginUpdate(f, t, start, slot);
          SoundUpdate(f, t, start);
        }
      case Step(t, input) =>
        if t in f.threads {
          StepBalanced(f, t, input, slot);
        }
    }
  }

  lemma DownIsSound()
    ensures SoundPod(Down)
  {
  }

  lemma IdleIsSound(slot: Slot)
    ensures SoundThread(Idle) && InFlight(Idle, slot) == 0
  {
  }

  lemma SameHoldings(f: Fleet, g: Fleet, slot: Slot)
    requires f.pods == g.pods && f.threads == g.threads
    ensures Assets(f, slot) == Assets(g, slot) && Outstanding(f, slot) == Outstanding(g, slot)
  {
  }

  lemma StepBalanced(f: Fleet, t: nat, input: Input, slot: Slot)
    requires SoundFleet(f) && t in f.threads
    ensures SoundFleet(Next(f, Step(t, input)))
    ensures Assets(Next(f, Step(t, input)), slot) == Assets(f, slot) + NetGain(Charge(f, Step(t, input), slot))
  {
    hide Assets, Outstanding, SoundThread, SoundPod, PoolStep, StoreStep, PoolCharge, StoreCharge, InFlight, WellFormed;
    var th := f.threads[t];
    if Owner(th).Some? && !IsUp(f, th.pod) {
      IdleIsSound(slot);
      AssetsUpdate(f, t, Idle, slot);
      SoundUpdate(f, t, Idle);
    } else if AtStore(th) {
      StoreStepBalanced(th, f.store, f.nowMs, input, slot);
      var (th', books) := StoreStep(th, f.store, f.nowMs, input);
      AssetsUpdate(f, t, th', slot);
      SoundUpdate(f, t, th');
      SameHoldings(f.(threads := f.threads[t := th']), Next(f, Step(t, input)), slot);
    } else if Owner(th).Some? {
      var pod := f.pods[th.pod];
      PoolStepBalanced(th, pod.pool, pod.failOpen, input, slot);
      OnlyPoolTerms(th, pod.pool, input, slot);
      var (th', pool) := PoolStep(th, pod.pool, pod.failOpen, input);
      AssetsUpdate(f, t, th', slot);
      SoundUpdate(f, t, th');
      PodUpdate(f.(threads := f.threads[t := th']), th.pod, pod.(pool := pool), slot);
      SoundPodUpdate(f.(threads := f.threads[t := th']), th.pod, pod.(pool := pool));
    }
  }

  lemma OnlyPoolTerms(th: Thread, pool: Pool, input: Input, slot: Slot)
    ensures var c := PoolCharge(th, pool, input, slot);
            c.borrowed == c.returned == c.dropped == c.storeGone == c.unseen == 0
  {
  }

  /** Exact ledger.  Over every run of every sound fleet, on every bucket: what the leases, reservations and
      credits in flight held before, plus what was borrowed and what was applied twice, is what they hold
      afterwards plus what was returned and what was lost. */
  lemma {:induction false} ExactLedger(f: Fleet, run: seq<Event>, slot: Slot)
    requires SoundFleet(f)
    ensures SoundFleet(After(f, run))
    ensures var c := Total(f, run, slot);
            Assets(f, slot) + c.borrowed + c.surplus ==
            Assets(After(f, run), slot) + c.returned + c.lapsed + c.gone + c.dropped
    decreases |run|
  {
    hide Assets, Charge, Next, SoundFleet;
    if run != [] {
      EventBalanced(f, run[0], slot);
      ExactLedger(Next(f, run[0]), run[1..], slot);
    }
  }
}
