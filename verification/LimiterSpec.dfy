/** Each limiter call from start to end, when nothing interferes: the pool and store functions it is
    composed of, in the limiter's order and with its branches. */
module LimiterSpec {
  import opened Quota
  import opened StoreSpec
  import P = PoolSpec

  /** What a call reads from its surroundings: the pod's clock in its i-th critical section, the store's
      clock, the fate of its store call, and new ids where one can be made. */
  datatype Env = Env(clock: nat -> int, storeMs: int, fault: Fault, ids: nat -> Option<string>)

  // ----- replies made up by the limiter

  function Denial(limits: Amounts, limitType: LimitType, retryMs: int): Decision {
    Decision(false, limitType, ZERO, Shown(Split(limits), limits), retryMs, "", ZERO)
  }

  function BorrowDenial(limits: Amounts, br: BorrowResult): Decision {
    var split := Split(limits);
    var remaining := if split then br.remaining.(tpm := br.remaining.otpm) else br.remaining;
    Decision(false, br.limitType, remaining, Shown(split, limits), br.retryMs, "", ZERO)
  }

  /** Without a pool a store error is decided by the fail mode alone. */
  function OnStoreError(failOpen: bool, limits: Amounts): Decision {
    var shown := Shown(Split(limits), limits);
    if failOpen then Decision(true, NoLimit, shown, shown, 0, "", ZERO) else Denial(limits, Backend, 1000)
  }

  // ----- Check

  function CheckDirect(books: Books, env: Env, failOpen: bool, key: Key, limits: Amounts,
                       cost: Amounts): (Books, Decision) {
    if env.ids(0).None? then (books, OnStoreError(failOpen, limits)) else
    var (b, reply) := Sent(env.fault, books, Check(books, env.storeMs, key, limits, cost, env.ids(0).value));
    (b, if reply.Ok? then reply.value else OnStoreError(failOpen, limits))
  }

  /** With a pool a store error is forgiven when the lease covers the cost. */
  function OnStoreErrorFast(p: P.Pool, env: Env, i: nat, failOpen: bool, key: Key, limits: Amounts,
                            cost: Amounts): (P.Pool, Decision) {
    if !failOpen then (p, Denial(limits, Backend, 1000)) else
    var (p1, covered) := P.Has(p, env.clock(i), key, cost, limits);
    if !covered || env.ids(1).None? then (p1, Denial(limits, Backend, 1000)) else
    var (p2, decision) := P.TryDebit(p1, env.clock(i + 1), key, limits, cost, env.ids(1).value);
    (p2, if decision.Some? then decision.value else Denial(limits, Backend, 1000))
  }

  /** What a check does after the first debit missed. */
  function CheckByBorrowing(p: P.Pool, books: Books, env: Env, failOpen: bool, key: Key, limits: Amounts, cost: Amounts,
                            id: string): (P.Pool, Books, Decision) {
    var (b, reply) := Sent(env.fault, books, Borrow(books, env.storeMs, key, limits, BorrowSpec(cost, p.cfg.chunk)));
    if reply.Err? then
      var (p1, decision) := OnStoreErrorFast(p, env, 3, failOpen, key, limits, cost);
      (p1, b, decision)
    else
      var br := reply.value;
      if !br.allowed then
        (P.DenySet(p, env.clock(3), key, br.limitType, br.retryMs), b, BorrowDenial(limits, br))
      else
        var p1 := P.CreditLease(p, env.clock(3), key, limits, br.got);
        var (p2, decision) := P.TryDebit(p1, env.clock(4), key, limits, cost, id);
        if decision.Some? then (p2, b, decision.value)
        else (P.DenySet(p2, env.clock(5), key, Backend, 1000), b, Denial(limits, Backend, 1000))
  }

  function CheckFast(p0: P.Pool, books: Books, env: Env, failOpen: bool, key: Key, limits: Amounts,
                     cost0: Amounts): (P.Pool, Books, Decision) {
    var cost := cost0.Clamped();
    var (p, hit) := P.DenyGet(p0, env.clock(0), key);
    if hit.Some? then (p, books, Denial(limits, hit.value.0, hit.value.1))
    else if env.ids(0).None? then
      var (p1, decision) := OnStoreErrorFast(p, env, 1, failOpen, key, limits, cost);
      (p1, books, decision)
    else
      var (p1, decision) := P.TryDebit(p, env.clock(1), key, limits, cost, env.ids(0).value);
      if decision.Some? then (p1, books, decision.value)
      else CheckByBorrowing(p1, books, env, failOpen, key, limits, cost, env.ids(0).value)
  }

  // ----- Settle, SettleIO and Refund

  /** Borrow what is missing; when that works, credit the lease and then apply the grant to the reservation. */
  function CoverDeficit(p: P.Pool, books: Books, env: Env, id: string, key: Key, limits: Amounts, split: bool,
                        dec: Decision): (P.Pool, Books, Decision) {
    var need := P.DeficitOf(split, dec.overshoot);
    var (b, reply) := Sent(env.fault, books, Borrow(books, env.storeMs, key, limits, BorrowSpec(need, need)));
    if reply.Err? || !reply.value.allowed then (p, b, dec) else
    var got := reply.value.got;
    var p1 := P.CreditLease(p, env.clock(3), key, limits, Masked(split, got));
    var p2 := P.ApplyDeficit(p1, env.clock(4), id, split, got);
    var (p3, found) := P.GetReservation(p2, env.clock(5), id);
    (p3, b, if found.Some? then found.value.last else dec)
  }

  function SettleFast(p0: P.Pool, books: Books, env: Env, id: string, split: bool,
                      actual: Amounts): (P.Pool, Books, Result<Decision>) {
    var (p, found) := P.GetReservation(p0, env.clock(0), id);
    if found.None? then
      var (b, reply) := Sent(env.fault, books, Settle(books, env.storeMs, id, split, actual));
      (p, b, reply)
    else if found.value.split != split then (p, books, Err(WrongSettleMode)) else
    var (p1, reply) := P.SettleLocal(p, env.clock(1), id, split, actual);
    if reply.Err? || !P.HasDeficit(P.DeficitOf(split, reply.value.overshoot)) then (p1, books, reply) else
    var (p2, b, dec) := CoverDeficit(p1, books, env, id, found.value.key, found.value.limits, split, reply.value);
    (p2, b, Ok(dec))
  }

  function RefundFast(p0: P.Pool, books: Books, env: Env, id: string): (P.Pool, Books, Result<()>) {
    var (p, found) := P.GetReservation(p0, env.clock(0), id);
    if found.None? then
      var (b, reply) := Sent(env.fault, books, Refund(books, env.storeMs, id));
      (p, b, reply)
    else
      var (p1, reply) := P.RefundLocal(p, env.clock(1), id);
      (p1, books, reply)
  }

  // ----- with and without a pool

  function CheckAny(pool: Option<P.Pool>, books: Books, env: Env, failOpen: bool, key: Key, limits: Amounts,
                    cost: Amounts): (Option<P.Pool>, Books, Result<Decision>) {
    if !ValidLimits(limits) then (pool, books, Err(InvalidArgument)) else
    match pool
    case None =>
      var (b, decision) := CheckDirect(books, env, failOpen, key, limits, cost);
      (None, b, Ok(decision))
    case Some(p) =>
      var (p1, b, decision) := CheckFast(p, books, env, failOpen, key, limits, cost);
      (Some(p1), b, Ok(decision))
  }

  function SettleAny(pool: Option<P.Pool>, books: Books, env: Env, id: string, split: bool,
                     actual: Amounts): (Option<P.Pool>, Books, Result<Decision>) {
    match pool
    case None =>
      var (b, reply) := Sent(env.fault, books, Settle(books, env.storeMs, id, split, actual));
      (None, b, reply)
    case Some(p) =>
      var (p1, b, reply) := SettleFast(p, books, env, id, split, actual);
      (Some(p1), b, reply)
  }

  function RefundAny(pool: Option<P.Pool>, books: Books, env: Env, id: string): (Option<P.Pool>, Books, Result<()>) {
    match pool
    case None =>
      var (b, reply) := Sent(env.fault, books, Refund(books, env.storeMs, id));
      (None, b, reply)
    case Some(p) =>
      var (p1, b, reply) := RefundFast(p, books, env, id);
      (Some(p1), b, reply)
  }

  // ----- Close

  /** When each lease is returned, and the fate of that call. */
  datatype Returns = Returns(atMs: string -> int, fault: string -> Fault)

  /** Return one snapshot entry to the store. */
  function ReturnOne(books: Books, rs: Returns, k: string, lease: P.Lease): (Books, Result<()>) {
    Sent(rs.fault(k), books, Return(books, rs.atMs(k), P.SplitKey(k), lease.limits, lease.balance))
  }

  /** Return snapshot entries one after the other.  The reply is the first error, if there is one. */
  function ReturnEach(books: Books, rs: Returns, out: map<string, P.Lease>, order: seq<string>): (Books, Result<()>)
    requires forall k | k in order :: k in out
    decreases |order|
  {
    if order == [] then (books, Ok(())) else
    var k := order[|order| - 1];
    var (b, first) := ReturnEach(books, rs, out, order[..|order| - 1]);
    var (b', reply) := ReturnOne(b, rs, k, out[k]);
    (b', if first.Err? then first else reply)
  }

  /** An order in which the entries of a map can be visited. */
  ghost predicate Visits<V>(order: seq<string>, m: map<string, V>) {
    Lists(order, m.Keys)
  }

  /** Each of the keys, once. */
  ghost predicate Lists(order: seq<string>, keys: set<string>) {
    (forall k :: k in order <==> k in keys) &&
    (forall i, j | 0 <= i < j < |order| :: order[i] != order[j])
  }

  lemma ListsOneMore(order: seq<string>, keys: set<string>, k: string)
    requires Lists(order, keys) && k !in keys
    ensures Lists(order + [k], keys + {k})
  {
  }

  lemma ReturnsOneMore(books: Books, rs: Returns, out: map<string, P.Lease>, order: seq<string>, k: string)
    requires (forall j | j in order :: j in out) && k in out
    ensures var (b, first) := ReturnEach(books, rs, out, order);
            var (b', reply) := ReturnOne(b, rs, k, out[k]);
            ReturnEach(books, rs, out, order + [k]) == (b', if first.Err? then first else reply)
  {
    hide ReturnOne;
    assert (order + [k])[..|order|] == order;
  }
}
