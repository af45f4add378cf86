/** One pod's lease pool: borrowed credits, local reservations and the deny cache, as a value, and what
    each of its critical sections does to it.  The pod's own clock reading is a parameter. */
module PoolSpec {
  import opened Quota
  import opened StoreSpec

  /** Chunk sizes to borrow and how long an idle lease lives. */
  datatype Config = Config(chunk: Amounts, leaseTtlMs: int)

  /** Unset entries get the defaults. */
  function Normalized(cfg: Config): (c: Config)
    ensures c.leaseTtlMs > 0 && forall a: Axis :: c.chunk.At(a) > 0
  {
    Config(
      Amounts(
        if cfg.chunk.rpm <= 0 then 5 else cfg.chunk.rpm,
        if cfg.chunk.tpm <= 0 then 500 else cfg.chunk.tpm,
        if cfg.chunk.itpm <= 0 then 500 else cfg.chunk.itpm,
        if cfg.chunk.otpm <= 0 then 500 else cfg.chunk.otpm),
      if cfg.leaseTtlMs <= 0 then 2000 else cfg.leaseTtlMs)
  }

  datatype Lease = Lease(balance: Amounts, limits: Amounts, expiresAt: int)

  datatype DenyEntry = DenyEntry(untilMs: int, limitType: LimitType)

  datatype Pool = Pool(
    cfg: Config,
    leases: map<string, Lease>,
    res: map<string, Reservation>,
    deny: map<string, DenyEntry>)

  function EmptyPool(cfg: Config): Pool {
    Pool(Normalized(cfg), map[], map[], map[])
  }

  // ----- leases

  predicate Lapsed(lease: Lease, nowMs: int) {
    !(nowMs < lease.expiresAt)
  }

  predicate Live(p: Pool, k: string, nowMs: int) {
    k in p.leases && !Lapsed(p.leases[k], nowMs)
  }

  /** Looking a lease up deletes it when it has lapsed. */
  function Swept(p: Pool, k: string, nowMs: int): Pool {
    if k in p.leases && Lapsed(p.leases[k], nowMs) then p.(leases := p.leases - {k}) else p
  }

  function PurgedPool(p: Pool, nowMs: int): Pool {
    p.(res := Unexpired(p.res, nowMs))
  }

  predicate Covers(balance: Amounts, cost: Amounts, split: bool) {
    balance.rpm >= cost.rpm &&
    (if split then balance.itpm >= cost.itpm && balance.otpm >= cost.otpm else balance.tpm >= cost.tpm)
  }

  function Has(p: Pool, nowMs: int, key: Key, cost: Amounts, limits: Amounts): (Pool, bool) {
    var k := BucketKey(key);
    (Swept(p, k, nowMs), Live(p, k, nowMs) && Covers(p.leases[k].balance, cost, Split(limits)))
  }

  function CreditLease(p: Pool, nowMs: int, key: Key, limits: Amounts, got: Amounts): Pool {
    var k := BucketKey(key);
    var balance := if Live(p, k, nowMs) then p.leases[k].balance else ZERO;
    p.(leases := p.leases[k := Lease(balance.Plus(got), limits, nowMs + p.cfg.leaseTtlMs)])
  }

  function Minus(x: Amounts, y: Amounts): Amounts {
    Amounts(x.rpm - y.rpm, x.tpm - y.tpm, x.itpm - y.itpm, x.otpm - y.otpm)
  }

  function TryDebit(p: Pool, nowMs: int, key: Key, limits: Amounts, cost: Amounts,
                    id: string): (Pool, Option<Decision>) {
    var k := BucketKey(key);
    var split := Split(limits);
    var q := Swept(PurgedPool(p, nowMs), k, nowMs);
    if !(k in q.leases && Covers(q.leases[k].balance, cost, split)) then (q, None) else
    var balance := Minus(q.leases[k].balance, Masked(split, cost));
    var lease := q.leases[k].(balance := balance, expiresAt := nowMs + p.cfg.leaseTtlMs);
    var r := Reservation(key, split, cost, limits, ZERO, Pending, NO_DECISION, nowMs + RESERVATION_TTL);
    (q.(leases := q.leases[k := lease], res := q.res[id := r]),
     Some(Decision(true, NoLimit, Shown(split, balance), Shown(split, limits), 0, id, ZERO)))
  }

  // ----- reservations

  function GetReservation(p: Pool, nowMs: int, id: string): (Pool, Option<Reservation>) {
    var q := PurgedPool(p, nowMs);
    (q, if id in q.res then Some(q.res[id]) else None)
  }

  /** Bring one balance from the reserved to the actual amount: (balance, overshoot, restored). */
  function LocalDelta(balance: int, reserved: int, actual: int): (int, int, bool) {
    if reserved > actual then (balance + (reserved - actual), 0, true)
    else if reserved < actual then
      var need := actual - reserved;
      if balance >= need then (balance - need, 0, false) else (0, need - balance, false)
    else (balance, 0, false)
  }

  /** The lease a settlement or refund works on: the live one, or a new empty one. */
  function WorkingLease(p: Pool, r: Reservation, nowMs: int): Lease {
    var k := BucketKey(r.key);
    if k in p.leases then p.leases[k] else Lease(ZERO, r.limits, nowMs + p.cfg.leaseTtlMs)
  }

  function DeltaOn(r: Reservation, balance: Amounts, actual: Amounts, a: Axis): (int, int, bool) {
    if a in TokenAxes(r.split) then LocalDelta(balance.At(a), r.reserved.At(a), actual.At(a))
    else (balance.At(a), 0, false)
  }

  function SettleLocal(p: Pool, nowMs: int, id: string, split: bool, actual0: Amounts): (Pool, Result<Decision>) {
    var q := PurgedPool(p, nowMs);
    if id !in q.res then (q, Err(ReservationNotFound)) else
    var r := q.res[id];
    if r.split != split then (q, Err(WrongSettleMode))
    else if r.status == Settled then (q, Ok(r.last))
    else if r.status == Refunded then (q, Err(ReservationRefunded)) else
    var actual := Masked(split, actual0.Clamped()).(rpm := 0);
    var k := BucketKey(r.key);
    var swept := Swept(q, k, nowMs);
    var lease := WorkingLease(swept, r, nowMs);
    var balance := Each(a => DeltaOn(r, lease.balance, actual, a).0);
    var overshoot := Each(a => DeltaOn(r, lease.balance, actual, a).1);
    var restored := DeltaOn(r, lease.balance, actual, Tpm).2 || DeltaOn(r, lease.balance, actual, Itpm).2 ||
      DeltaOn(r, lease.balance, actual, Otpm).2;
    var dec := Decision(true, NoLimit, Shown(split, balance), Shown(split, r.limits), 0, id, overshoot);
    var r' := r.(status := Settled, actual := actual, last := dec, expiresAt := nowMs + RESERVATION_TTL);
    (swept.(leases := swept.leases[k := lease.(balance := balance, expiresAt := nowMs + p.cfg.leaseTtlMs)],
            res := swept.res[id := r'],
            deny := if restored then swept.deny - {k} else swept.deny),
     Ok(dec))
  }

  /** Add a grant to a balance and pay recorded overshoot out of it: (balance, overshoot left). */
  function Absorb(balance: int, got: int, over: int): (int, int) {
    var sum := balance + got;
    if over > 0 then
      if sum >= over then (sum - over, 0) else (0, over - sum)
    else (sum, over)
  }

  function ApplyDeficit(p: Pool, nowMs: int, id: string, split: bool, got: Amounts): Pool {
    if id !in p.res then p else
    var r := p.res[id];
    var k := BucketKey(r.key);
    var q := Swept(p, k, nowMs);
    if k !in q.leases then q else
    var had := q.leases[k].balance;
    var over := r.last.overshoot;
    if split then
      var (itpm, overIn) := Absorb(had.itpm, got.itpm, over.itpm);
      var (otpm, overOut) := Absorb(had.otpm, got.otpm, over.otpm);
      var remaining := Amounts(had.rpm, otpm, itpm, otpm);
      var last := r.last.(remaining := remaining, overshoot := over.(itpm := overIn, otpm := overOut));
      q.(leases := q.leases[k := q.leases[k].(balance := had.(itpm := itpm, otpm := otpm))],
         res := q.res[id := r.(last := last)])
    else
      var (tpm, overTok) := Absorb(had.tpm, got.tpm, over.tpm);
      var remaining := r.last.remaining.(rpm := had.rpm, tpm := tpm);
      var last := r.last.(remaining := remaining, overshoot := over.(tpm := overTok));
      q.(leases := q.leases[k := q.leases[k].(balance := had.(tpm := tpm))], res := q.res[id := r.(last := last)])
  }

  /** Only the token axes of the mode count in an applied grant. */
  lemma ApplyReadsTokens(p: Pool, nowMs: int, id: string, split: bool, got: Amounts)
    ensures ApplyDeficit(p, nowMs, id, split, Masked(split, got).(rpm := 0)) == ApplyDeficit(p, nowMs, id, split, got)
  {
  }

  /** The overshoot a settlement tries to cover with one more Borrow. */
  function DeficitOf(split: bool, overshoot: Amounts): Amounts {
    if split then Amounts(0, 0, overshoot.itpm, overshoot.otpm) else Amounts(0, overshoot.tpm, 0, 0)
  }

  predicate HasDeficit(need: Amounts) {
    need.tpm > 0 || need.itpm > 0 || need.otpm > 0
  }

  function RefundLocal(p: Pool, nowMs: int, id: string): (Pool, Result<()>) {
    var q := PurgedPool(p, nowMs);
    if id !in q.res then (q, Err(ReservationNotFound)) else
    var r := q.res[id];
    if r.status == Refunded then (q, Ok(()))
    else if r.status == Settled then (q, Err(ReservationSettled)) else
    var k := BucketKey(r.key);
    var swept := Swept(q, k, nowMs);
    var lease := WorkingLease(swept, r, nowMs);
    var balance := lease.balance.Plus(Masked(r.split, r.reserved));
    (swept.(leases := swept.leases[k := lease.(balance := balance, expiresAt := nowMs + p.cfg.leaseTtlMs)],
            res := swept.res[id := r.(status := Refunded, expiresAt := nowMs + RESERVATION_TTL)],
            deny := swept.deny - {k}),
     Ok(()))
  }

  // ----- closing

  predicate Returnable(lease: Lease, nowMs: int) {
    !Lapsed(lease, nowMs) &&
    (lease.balance.rpm > 0 || lease.balance.tpm > 0 || lease.balance.itpm > 0 || lease.balance.otpm > 0)
  }

  /** Zero every live lease and hand out what it held. */
  function Snapshot(p: Pool, nowMs: int): (Pool, map<string, Lease>) {
    (p.(leases := map k | k in p.leases :: if Returnable(p.leases[k], nowMs) then p.leases[k].(balance := ZERO)
        else p.leases[k]),
     map k | k in p.leases && Returnable(p.leases[k], nowMs) :: p.leases[k])
  }

  /** The subject and model of a map key: cut at its first NUL. */
  function SplitKey(k: string): Key {
    var i := FirstNul(k, 0);
    if i < |k| then Key(k[..i], k[i + 1..]) else Key(k, "-")
  }

  function FirstNul(k: string, from: nat): (i: nat)
    requires from <= |k|
    ensures from <= i <= |k| && (i < |k| ==> k[i] == '\0')
    ensures forall j | from <= j < i :: k[j] != '\0'
    decreases |k| - from
  {
    if from == |k| || k[from] == '\0' then from else FirstNul(k, from + 1)
  }

  // ----- deny cache

  function DenyGet(p: Pool, nowMs: int, key: Key): (Pool, Option<(LimitType, int)>) {
    var k := BucketKey(key);
    if k !in p.deny then (p, None)
    else if !(nowMs < p.deny[k].untilMs) then (p.(deny := p.deny - {k}), None)
    else (p, Some((p.deny[k].limitType, p.deny[k].untilMs - nowMs)))
  }

  function DenySet(p: Pool, nowMs: int, key: Key, limitType: LimitType, retryMs: int): Pool {
    p.(deny := p.deny[BucketKey(key) := DenyEntry(nowMs + (if retryMs <= 0 then 1000 else retryMs), limitType)])
  }
}
