/** Many pods, each with its own pool, and any number of threads sharing one store.  Each critical section
    is one step; a limiter call is a small program of such steps, so credits can be on their way between
    the store and a pool.  Store calls may fail before or after their effect, pods may crash, pod clocks
    are arbitrary, and only the store's clock never goes back. */
module Fleet {
  import opened Quota
  import opened StoreSpec
  import opened PoolSpec

  /** Which of the debits of a fast-path check this is. */
  datatype Attempt = First | AfterBorrow | Fallback

  /** Why a reservation is looked up. */
  datatype Purpose = ToSettle(split: bool, actual: Amounts) | ToRefund | ToReport

  /** Where a thread is in its limiter call, with the values it carries. */
  datatype Thread =
    | Idle
    // checkFast
    | Consulting(pod: nat, key: Key, limits: Amounts, cost: Amounts, made: Option<string>)
    | Debiting(pod: nat, key: Key, limits: Amounts, cost: Amounts, id: string, attempt: Attempt)
    | Borrowing(pod: nat, key: Key, limits: Amounts, cost: Amounts, id: string, chunk: Amounts, failOpen: bool)
    | Crediting(pod: nat, key: Key, limits: Amounts, cost: Amounts, id: string, got: Amounts)
    | Noting(pod: nat, key: Key, limitType: LimitType, retryMs: int)
    | Peeking(pod: nat, key: Key, limits: Amounts, cost: Amounts)
    // Settle, SettleIO and Refund
    | LookingUp(pod: nat, id: string, purpose: Purpose)
    | Settling(pod: nat, id: string, key: Key, limits: Amounts, split: bool, actual: Amounts)
    | Covering(pod: nat, id: string, key: Key, limits: Amounts, need: Amounts, split: bool)
    | CreditingDeficit(pod: nat, id: string, key: Key, limits: Amounts, got: Amounts, split: bool)
    | Applying(pod: nat, id: string, got: Amounts, split: bool)
    | Refunding(pod: nat, id: string)
    // Close
    | Closing(pod: nat)
    | Returning(pod: nat, pending: map<string, Lease>)
    // a call that goes straight to the store
    | Calling(call: Call)

  datatype Pod = Up(pool: Pool, failOpen: bool) | Down

  datatype Fleet = Fleet(nowMs: int, store: Books, pods: map<nat, Pod>, threads: map<nat, Thread>)

  /** What a step is not in control of: the pod's clock, the network, the order of map iteration, a new id (if
      one can be made). */
  datatype Input = Input(clockMs: int, fault: Fault, pick: string, newId: Option<string>)

  datatype Event =
    | Tick(ms: nat)
    | Launch(pod: nat, cfg: Config, failOpen: bool)
    | Crash(pod: nat)
    | Begin(thread: nat, start: Thread)
    | Step(thread: nat, input: Input)

  /** The calls of the public interface; a limiter without a pool calls the store directly. */
  predicate IsStart(th: Thread) {
    th.Consulting? ||
    (th.LookingUp? && !th.purpose.ToReport?) ||
    th.Closing? ||
    (th.Calling? && (th.call.CheckCall? || th.call.SettleCall? || th.call.RefundCall?))
  }

  function Owner(th: Thread): Option<nat> {
    if th.Idle? || th.Calling? then None else Some(th.pod)
  }

  predicate AtStore(th: Thread) {
    th.Borrowing? || th.Covering? || th.Returning? || th.Calling?
  }

  // ----- steps inside a pod

  function AfterCheckError(pod: nat, key: Key, limits: Amounts, cost: Amounts, failOpen: bool): Thread {
    if failOpen then Peeking(pod, key, limits, cost) else Idle
  }

  function AfterLookup(th: Thread, found: Option<Reservation>): Thread
    requires th.LookingUp?
  {
    match found
    case None =>
      (match th.purpose
       case ToSettle(split, actual) => Calling(SettleCall(th.id, split, actual))
       case ToRefund => Calling(RefundCall(th.id))
       case ToReport => Idle)
    case Some(r) =>
      (match th.purpose
       case ToSettle(split, actual) =>
         if r.split != split then Idle else Settling(th.pod, th.id, r.key, r.limits, split, actual)
       case ToRefund => Refunding(th.pod, th.id)
       case ToReport => Idle)
  }

  function AfterSettle(th: Thread, reply: Result<Decision>): Thread
    requires th.Settling?
  {
    if reply.Err? then Idle else
    var need := DeficitOf(th.split, reply.value.overshoot);
    if HasDeficit(need)
    then Covering(th.pod, th.id, th.key, th.limits, need, th.split)
    else Idle
  }

  /** One critical section of the thread's own pool. */
  function PoolStep(th: Thread, pool: Pool, failOpen: bool, input: Input): (Thread, Pool) {
    var at := input.clockMs;
    match th
    case Consulting(pod, key, limits, cost, made) =>
      var (p, hit) := DenyGet(pool, at, key);
      (if hit.Some? then Idle
       else if made.None? then AfterCheckError(pod, key, limits, cost.Clamped(), failOpen)
       else Debiting(pod, key, limits, cost.Clamped(), made.value, First),
       p)
    case Debiting(pod, key, limits, cost, id, attempt) =>
      var (p, decision) := TryDebit(pool, at, key, limits, cost, id);
      (if decision.Some? then Idle
       else match attempt
         case First => Borrowing(pod, key, limits, cost, id, pool.cfg.chunk, failOpen)
         case AfterBorrow => Noting(pod, key, Backend, 1000)
         case Fallback => Idle,
       p)
    case Crediting(pod, key, limits, cost, id, got) =>
      (Debiting(pod, key, limits, cost, id, AfterBorrow), CreditLease(pool, at, key, limits, got))
    case Noting(_, key, limitType, retryMs) => (Idle, DenySet(pool, at, key, limitType, retryMs))
    case Peeking(pod, key, limits, cost) =>
      var (p, covered) := Has(pool, at, key, cost, limits);
      (if covered && input.newId.Some? then Debiting(pod, key, limits, cost, input.newId.value, Fallback) else Idle, p)
    case LookingUp(_, id, _) =>
      var (p, found) := GetReservation(pool, at, id);
      (AfterLookup(th, found), p)
    case Settling(_, id, _, _, split, actual) =>
      var (p, reply) := SettleLocal(pool, at, id, split, actual);
      (AfterSettle(th, reply), p)
    case CreditingDeficit(pod, id, key, limits, got, split) =>
      (Applying(pod, id, got, split), CreditLease(pool, at, key, limits, Masked(split, got)))
    case Applying(pod, id, got, split) => (LookingUp(pod, id, ToReport), ApplyDeficit(pool, at, id, split, got))
    case Refunding(_, id) => (Idle, RefundLocal(pool, at, id).0)
    case Closing(pod) =>
      var (p, out) := Snapshot(pool, at);
      (Returning(pod, out), p)
    case _ => (th, pool)
  }

  // ----- steps at the store

  /** The call a thread makes, if it is at one. */
  function CallOf(th: Thread, input: Input): Option<Call> {
    match th
    case Borrowing(_, key, limits, cost, _, chunk, _) => Some(BorrowCall(key, limits, BorrowSpec(cost, chunk)))
    case Covering(_, _, key, limits, need, _) => Some(BorrowCall(key, limits, BorrowSpec(need, need)))
    case Returning(_, pending) =>
      if input.pick in pending then
        Some(ReturnCall(SplitKey(input.pick), pending[input.pick].limits, pending[input.pick].balance))
      else None
    case Calling(call) => Some(call)
    case _ => None
  }

  /** Where the thread goes on from its store call. */
  function AfterCall(th: Thread, books: Books, nowMs: int, input: Input): Thread {
    match th
    case Borrowing(pod, key, limits, cost, id, chunk, failOpen) =>
      var reply := Borrow(books, nowMs, key, limits, BorrowSpec(cost, chunk)).1;
      if !input.fault.NoFault? || reply.Err? then AfterCheckError(pod, key, limits, cost, failOpen)
      else if !reply.value.allowed then Noting(pod, key, reply.value.limitType, reply.value.retryMs)
      else Crediting(pod, key, limits, cost, id, reply.value.got)
    case Covering(pod, id, key, limits, need, split) =>
      var reply := Borrow(books, nowMs, key, limits, BorrowSpec(need, need)).1;
      if input.fault.NoFault? && reply.Ok? && reply.value.allowed
      then CreditingDeficit(pod, id, key, limits, reply.value.got, split)
      else Idle
    case Returning(pod, pending) =>
      if input.pick in pending then Returning(pod, pending - {input.pick})
      else if pending == map[] then Idle
      else th
    case _ => Idle
  }

  /** One store call: its effect takes place unless it was never sent. */
  function StoreStep(th: Thread, books: Books, nowMs: int, input: Input): (Thread, Books) {
    var call := CallOf(th, input);
    (AfterCall(th, books, nowMs, input),
     if call.None? || input.fault.NotSent? then books else Exec(books, nowMs, call.value))
  }

  // ----- the whole fleet

  predicate IsUp(f: Fleet, pod: nat) {
    pod in f.pods && f.pods[pod].Up?
  }

  function Next(f: Fleet, e: Event): Fleet {
    match e
    case Tick(ms) => f.(nowMs := f.nowMs + ms)
    case Launch(pod, cfg, failOpen) =>
      if pod in f.pods then f else f.(pods := f.pods[pod := Up(EmptyPool(cfg), failOpen)])
    case Crash(pod) => if IsUp(f, pod) then f.(pods := f.pods[pod := Down]) else f
    case Begin(t, start) =>
      if IsStart(start) && (t in f.threads ==> f.threads[t].Idle?) then f.(threads := f.threads[t := start]) else f
    case Step(t, input) =>
      if t !in f.threads then f else
      var th := f.threads[t];
      if Owner(th).Some? && !IsUp(f, th.pod) then f.(threads := f.threads[t := Idle])
      else if AtStore(th) then
        var (th', books) := StoreStep(th, f.store, f.nowMs, input);
        f.(threads := f.threads[t := th'], store := books)
      else if Owner(th).Some? then
        var (th', pool) := PoolStep(th, f.pods[th.pod].pool, f.pods[th.pod].failOpen, input);
        f.(threads := f.threads[t := th'], pods := f.pods[th.pod := f.pods[th.pod].(pool := pool)])
      else f
  }

  function After(f: Fleet, run: seq<Event>): Fleet
    decreases |run|
  {
    if run == [] then f else After(Next(f, run[0]), run[1..])
  }

  function Elapsed(run: seq<Event>): nat
    decreases |run|
  {
    if run == [] then 0 else (if run[0].Tick? then run[0].ms else 0) + Elapsed(run[1..])
  }

  /** A fleet before anything has happened. */
  function ColdStart(nowMs: int): Fleet {
    Fleet(nowMs, EMPTY, map[], map[])
  }
}
