/** The store as the Redis scripts implement it, as functions on values: one hash per bucket and one per
    reservation, server time as a parameter, and expiry by the server instead of a purge. */
module ScriptSpec {
  import opened Quota
  import opened Bucket
  import opened StoreSpec

  /** A reservation hash.  Settling leaves a snapshot of what the reply showed. */
  datatype ResHash = ResHash(
    key: Key,
    split: bool,
    reserved: Amounts,
    limits: Amounts,
    status: Status,
    snapRemaining: Amounts,
    snapOvershoot: Amounts,
    expiresAt: int)

  type Hashes = Shelves<ResHash>

  const NO_HASHES: Hashes := Shelves(map[], map[], map[], map[], map[])

  /** The level after the script's refill; a bucket without a hash is full. */
  function Level(shelf: map<string, Cell>, k: string, capacity: int, nowMs: int): int {
    if k !in shelf then capacity * UNIT
    else
      var c := shelf[k];
      if nowMs > c.lastMs && capacity > 0 then Min(capacity * UNIT, c.tokens + Gain(capacity, nowMs - c.lastMs))
      else c.tokens
  }

  function LevelOn(h: Hashes, a: Axis, k: string, limits: Amounts, nowMs: int): int {
    Level(h.Shelf(a), k, limits.At(a), nowMs)
  }

  function RetryMs(tokens: int, capacity: int, need: int): int {
    if capacity <= 0 then 3_600_000
    else
      var deficit := need * UNIT - tokens;
      if deficit <= 0 then 0 else CeilDiv(deficit, capacity * 1000) * 1000
  }

  /** HMSET of a level at the server's time. */
  function At(tokens: int, nowMs: int): State {
    State(tokens, nowMs, 0)
  }

  /** The reservation hash, if it exists and has not expired. */
  function Find(h: Hashes, id: string, nowMs: int): Option<ResHash> {
    if id in h.res && !(nowMs > h.res[id].expiresAt) then Some(h.res[id]) else None
  }

  predicate HasCost(h: Hashes, a: Axis, k: string, limits: Amounts, nowMs: int, cost: Amounts) {
    !(LevelOn(h, a, k, limits, nowMs) < cost.At(a) * UNIT || cost.At(a) > limits.At(a))
  }

  function SpendOn(h: Hashes, k: string, limits: Amounts, nowMs: int, cost: Amounts): Axis -> State {
    a => At(LevelOn(h, a, k, limits, nowMs) - cost.At(a) * UNIT, nowMs)
  }

  function Check(h: Hashes, nowMs: int, key: Key, limits: Amounts, cost0: Amounts,
                 id: string): (Hashes, Result<Decision>) {
    if !ValidLimits(limits) || key.subject == "" || id == "" then (h, Err(InvalidArgument)) else
    var cost := cost0.Clamped();
    var split := Split(limits);
    var k := BucketKey(key);
    match FirstFailing(split, a => HasCost(h, a, k, limits, nowMs, cost))
    case Some(bad) =>
      var remaining := Each(a => Whole(LevelOn(h, a, k, limits, nowMs)));
      (h, Ok(Decision(false, On(bad), Shown(split, remaining), Shown(split, limits),
                      RetryMs(LevelOn(h, bad, k, limits, nowMs), limits.At(bad), cost.At(bad)), "", ZERO)))
    case None =>
      var remaining := Each(a => Whole(LevelOn(h, a, k, limits, nowMs) - cost.At(a) * UNIT));
      var r := ResHash(key, split, Masked(split, cost), Masked(split, limits), Pending, ZERO, ZERO,
                       nowMs + RESERVATION_TTL);
      (Saved(h, ModeAxes(split), k, SpendOn(h, k, limits, nowMs, cost)).(res := h.res[id := r]),
       Ok(Decision(true, NoLimit, Shown(split, remaining), Shown(split, limits), 0, id, ZERO)))
  }

  /** Level and overshoot after bringing an axis from the reserved to the actual amount. */
  function ApplyDelta(tokens: int, capacity: int, reserved: int, actual: int): (int, int) {
    var delta := reserved - actual;
    if delta > 0 then (Min(capacity * UNIT, tokens + delta * UNIT), 0)
    else if delta < 0 then
      var need := -delta;
      var avail := Whole(tokens);
      if avail >= need then (tokens - need * UNIT, 0)
      else (Max(0, tokens - avail * UNIT), need - avail)
    else (tokens, 0)
  }

  function SettledLevel(h: Hashes, a: Axis, r: ResHash, nowMs: int, actual: Amounts): (int, int) {
    ApplyDelta(LevelOn(h, a, BucketKey(r.key), r.limits, nowMs), r.limits.At(a), r.reserved.At(a), actual.At(a))
  }

  /** Requests keep their level, token axes are settled; all of them are written. */
  function SettleOn(h: Hashes, r: ResHash, nowMs: int, actual: Amounts): Axis -> State {
    a => At(if a in TokenAxes(r.split) then SettledLevel(h, a, r, nowMs, actual).0
            else LevelOn(h, a, BucketKey(r.key), r.limits, nowMs), nowMs)
  }

  function Settle(h: Hashes, nowMs: int, id: string, split: bool, actual0: Amounts): (Hashes, Result<Decision>) {
    var found := Find(h, id, nowMs);
    if found.None? then (h, Err(ReservationNotFound)) else
    var r := found.value;
    if r.split != split then (h, Err(WrongSettleMode))
    else if r.status == Settled then
      (h, Ok(Decision(true, NoLimit, r.snapRemaining, Shown(split, r.limits), 0, id, r.snapOvershoot)))
    else if r.status == Refunded then (h, Err(ReservationRefunded)) else
    var actual := Masked(split, actual0.Clamped()).(rpm := 0);
    var k := BucketKey(r.key);
    var f := SettleOn(h, r, nowMs, actual);
    var remaining := Shown(split, Each(a => Whole(f(a).tokens)));
    var overshoot := Each(a => if a in TokenAxes(split) then SettledLevel(h, a, r, nowMs, actual).1 else 0);
    var r' := r.(status := Settled, snapRemaining := remaining, snapOvershoot := overshoot,
                 expiresAt := nowMs + RESERVATION_TTL);
    (Saved(h, ModeAxes(split), k, f).(res := h.res[id := r']),
     Ok(Decision(true, NoLimit, remaining, Shown(split, r.limits), 0, id, overshoot)))
  }

  /** Capped addition. */
  function AddOn(h: Hashes, k: string, limits: Amounts, nowMs: int, add: Amounts): Axis -> State {
    a => At(Min(limits.At(a) * UNIT, LevelOn(h, a, k, limits, nowMs) + add.At(a) * UNIT), nowMs)
  }

  function Refund(h: Hashes, nowMs: int, id: string): (Hashes, Result<()>) {
    var found := Find(h, id, nowMs);
    if found.None? then (h, Err(ReservationNotFound)) else
    var r := found.value;
    if r.status == Refunded then (h, Ok(()))
    else if r.status == Settled then (h, Err(ReservationSettled)) else
    var k := BucketKey(r.key);
    var r' := r.(status := Refunded, expiresAt := nowMs + RESERVATION_TTL);
    (Saved(h, ModeAxes(r.split), k, AddOn(h, k, r.limits, nowMs, r.reserved)).(res := h.res[id := r']), Ok(()))
  }

  function GotOn(h: Hashes, a: Axis, k: string, limits: Amounts, nowMs: int, spec: BorrowSpec): int {
    WantGot(Whole(LevelOn(h, a, k, limits, nowMs)), spec.min.At(a), spec.chunk.At(a))
  }

  function GrantEach(h: Hashes, k: string, limits: Amounts, nowMs: int, spec: BorrowSpec): Amounts {
    Each(a => GotOn(h, a, k, limits, nowMs, spec))
  }

  function Borrow(h: Hashes, nowMs: int, key: Key, limits: Amounts, spec0: BorrowSpec): (Hashes, Result<BorrowResult>) {
    if !ValidLimits(limits) || key.subject == "" then (h, Err(InvalidArgument)) else
    var spec := BorrowSpec(spec0.min.Clamped(), spec0.chunk.Clamped());
    var split := Split(limits);
    var k := BucketKey(key);
    match FirstFailing(split, a => Whole(LevelOn(h, a, k, limits, nowMs)) >= spec.min.At(a))
    case Some(bad) =>
      var avail := Each(a => Whole(LevelOn(h, a, k, limits, nowMs)));
      (h, Ok(BorrowResult(false, On(bad), ZERO, Shown(split, avail),
                          RetryMs(LevelOn(h, bad, k, limits, nowMs), limits.At(bad), spec.min.At(bad)),
                            Shown(split, limits))))
    case None =>
      var got := Masked(split, GrantEach(h, k, limits, nowMs, spec));
      var remaining := Each(a => Whole(LevelOn(h, a, k, limits, nowMs) - got.At(a) * UNIT));
      (Saved(h, ModeAxes(split), k, SpendOn(h, k, limits, nowMs, got)),
       Ok(BorrowResult(true, NoLimit, got, Shown(split, remaining), 0, Shown(split, limits))))
  }

  function Return(h: Hashes, nowMs: int, key: Key, limits: Amounts, add: Amounts): (Hashes, Result<()>) {
    if key.subject == "" then (h, Err(InvalidArgument))
    else if add.rpm <= 0 && add.tpm <= 0 && add.itpm <= 0 && add.otpm <= 0 then (h, Ok(()))
    else if Split(limits) && add.rpm <= 0 && add.itpm <= 0 && add.otpm <= 0 then (h, Ok(())) else
    var k := BucketKey(key);
    (Saved(h, ModeAxes(Split(limits)), k, AddOn(h, k, limits, nowMs, add.Clamped())), Ok(()))
  }
}
