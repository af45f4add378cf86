/** What the shared store holds and what each of its calls does, as functions on values.
    The clock reading of a call is a parameter. */
module StoreSpec {
  import opened Quota
  import opened Bucket

  /** A stored bucket: the level and the instant it was computed for. */
  datatype Cell = Cell(tokens: int, lastMs: int)

  /** A reservation.  `actual` records what it was settled at; nothing reads it back. */
  datatype Reservation = Reservation(
    key: Key,
    split: bool,
    reserved: Amounts,
    limits: Amounts,
    actual: Amounts,
    status: Status,
    last: Decision,
    expiresAt: int)

  const NO_DECISION := Decision(false, NoLimit, ZERO, ZERO, 0, "", ZERO)

  /** The bucket under a key, refilled to now; one never stored is full. */
  function LoadBucket(shelf: map<string, Cell>, k: string, capacity: int, nowMs: int): State {
    var cold := k !in shelf || shelf[k].lastMs == 0;
    Refill(if cold then State(0, 0, capacity) else State(shelf[k].tokens, shelf[k].lastMs, capacity), nowMs)
  }

  function ToCell(s: State): Cell {
    Cell(s.tokens, s.lastMs)
  }

  /** Four maps of buckets, and reservations recorded in one way or another. */
  datatype Shelves<R> = Shelves(
    rpm: map<string, Cell>,
    tpm: map<string, Cell>,
    itpm: map<string, Cell>,
    otpm: map<string, Cell>,
    res: map<string, R>)
  {
    function Shelf(a: Axis): map<string, Cell> {
      match a
      case Rpm => rpm
      case Tpm => tpm
      case Itpm => itpm
      case Otpm => otpm
    }

    function Load(a: Axis, k: string, limits: Amounts, nowMs: int): State {
      LoadBucket(Shelf(a), k, limits.At(a), nowMs)
    }
  }

  type Books = Shelves<Reservation>

  function Purged(b: Books, nowMs: int): Books {
    b.(res := Unexpired(b.res, nowMs))
  }

  /** Store f(a) under k for each of the given axes. */
  function Saved<R>(b: Shelves<R>, axes: set<Axis>, k: string, f: Axis -> State): Shelves<R> {
    Shelves(
      if Rpm in axes then b.rpm[k := ToCell(f(Rpm))] else b.rpm,
      if Tpm in axes then b.tpm[k := ToCell(f(Tpm))] else b.tpm,
      if Itpm in axes then b.itpm[k := ToCell(f(Itpm))] else b.itpm,
      if Otpm in axes then b.otpm[k := ToCell(f(Otpm))] else b.otpm,
      b.res)
  }

  const EMPTY: Books := Shelves(map[], map[], map[], map[], map[])

  function Unexpired(res: map<string, Reservation>, nowMs: int): map<string, Reservation> {
    map id | id in res && !(nowMs > res[id].expiresAt) :: res[id]
  }

  function ModeAxes(split: bool): set<Axis> {
    if split then {Rpm, Itpm, Otpm} else {Rpm, Tpm}
  }

  /** The axes a settlement writes: it never touches the request bucket. */
  function TokenAxes(split: bool): set<Axis> {
    if split then {Itpm, Otpm} else {Tpm}
  }

  function Each(f: Axis -> int): Amounts {
    Amounts(f(Rpm), f(Tpm), f(Itpm), f(Otpm))
  }

  /** The first axis of the mode, in order, that is not all right. */
  function FirstFailing(split: bool, ok: Axis -> bool): Option<Axis> {
    if !ok(Rpm) then Some(Rpm)
    else if split then
      if !ok(Itpm) then Some(Itpm) else if !ok(Otpm) then Some(Otpm) else None
    else
      if !ok(Tpm) then Some(Tpm) else None
  }

  function CellIn(shelf: map<string, Cell>, k: string): Option<Cell> {
    if k in shelf then Some(shelf[k]) else None
  }

  function CellAt<R>(b: Shelves<R>, slot: Slot): Option<Cell> {
    CellIn(b.Shelf(slot.axis), slot.key)
  }

  lemma SavedAt<R>(b: Shelves<R>, axes: set<Axis>, k: string, f: Axis -> State, slot: Slot)
    ensures CellAt(Saved(b, axes, k, f), slot) ==
            if slot.key == k && slot.axis in axes then Some(ToCell(f(slot.axis))) else CellAt(b, slot)
  {
  }

  /** Consume the cost on one axis. */
  function Consumed(b: Books, a: Axis, k: string, limits: Amounts, nowMs: int, cost: Amounts): (State, Outcome) {
    TryConsume(b.Load(a, k, limits, nowMs), nowMs, cost.At(a))
  }

  function ConsumeOn(b: Books, k: string, limits: Amounts, nowMs: int, cost: Amounts): Axis -> State {
    a => Consumed(b, a, k, limits, nowMs, cost).0
  }

  function CreditOn(b: Books, k: string, limits: Amounts, nowMs: int, amounts: Amounts): Axis -> State {
    a => Credit(b.Load(a, k, limits, nowMs), nowMs, amounts.At(a))
  }

  function Check(b0: Books, nowMs: int, key: Key, limits: Amounts, cost0: Amounts,
                 id: string): (Books, Result<Decision>) {
    if !ValidLimits(limits) then (b0, Err(InvalidArgument)) else
    var b := Purged(b0, nowMs);
    if key.subject == "" || id == "" then (b, Err(InvalidArgument)) else
    var cost := cost0.Clamped();
    var split := Split(limits);
    var k := BucketKey(key);
    match FirstFailing(split, a => Consumed(b, a, k, limits, nowMs, cost).1.allowed)
    case Some(bad) =>
      var out := Consumed(b, bad, k, limits, nowMs, cost).1;
      var remaining := Each(a => if a == bad then out.remaining else Whole(b.Load(a, k, limits, nowMs).tokens));
      (b, Ok(Decision(false, On(bad), Shown(split, remaining), Shown(split, limits), out.retryMs, "", ZERO)))
    case None =>
      var remaining := Each(a => Consumed(b, a, k, limits, nowMs, cost).1.remaining);
      var r := Reservation(key, split, Masked(split, cost), Masked(split, limits), ZERO, Pending, NO_DECISION,
                           nowMs + RESERVATION_TTL);
      (Saved(b, ModeAxes(split), k, ConsumeOn(b, k, limits, nowMs, cost)).(res := b.res[id := r]),
       Ok(Decision(true, NoLimit, Shown(split, remaining), Shown(split, limits), 0, id, ZERO)))
  }

  /** Bring one axis from the reserved to the actual amount.  Returns the state and the overshoot. */
  function SettleAxis(s: State, nowMs: int, reserved: int, actual: int): (State, int) {
    if reserved > actual then (Credit(s, nowMs, reserved - actual), 0)
    else if reserved < actual then
      var (t, _, overshoot) := DebitFloor(s, nowMs, actual - reserved); (t, overshoot)
    else (s, 0)
  }

  function SettledAxis(b: Books, a: Axis, r: Reservation, nowMs: int, actual: Amounts): (State, int) {
    SettleAxis(b.Load(a, BucketKey(r.key), r.limits, nowMs), nowMs, r.reserved.At(a), actual.At(a))
  }

  function SettleOn(b: Books, r: Reservation, nowMs: int, actual: Amounts): Axis -> State {
    a => SettledAxis(b, a, r, nowMs, actual).0
  }

  /** Settle a classic (split = false) or split reservation. */
  function Settle(b0: Books, nowMs: int, id: string, split: bool, actual0: Amounts): (Books, Result<Decision>) {
    var b := Purged(b0, nowMs);
    if id !in b.res then (b, Err(ReservationNotFound)) else
    var r := b.res[id];
    if r.split != split then (b, Err(WrongSettleMode))
    else if r.status == Settled then (b, Ok(r.last))
    else if r.status == Refunded then (b, Err(ReservationRefunded)) else
    var actual := Masked(split, actual0.Clamped()).(rpm := 0);
    var k := BucketKey(r.key);
    var remaining := Each(a =>
      Whole(if a in TokenAxes(split) then SettledAxis(b, a, r, nowMs, actual).0.tokens
            else b.Load(a, k, r.limits, nowMs).tokens));
    var overshoot := Each(a => if a in TokenAxes(split) then SettledAxis(b, a, r, nowMs, actual).1 else 0);
    var dec := Decision(true, NoLimit, Shown(split, remaining), Shown(split, r.limits), 0, id, overshoot);
    var r' := r.(status := Settled, actual := actual, last := dec, expiresAt := nowMs + RESERVATION_TTL);
    (Saved(b, TokenAxes(split), k, SettleOn(b, r, nowMs, actual)).(res := b.res[id := r']), Ok(dec))
  }

  function Refund(b0: Books, nowMs: int, id: string): (Books, Result<()>) {
    var b := Purged(b0, nowMs);
    if id !in b.res then (b, Err(ReservationNotFound)) else
    var r := b.res[id];
    if r.status == Refunded then (b, Ok(()))
    else if r.status == Settled then (b, Err(ReservationSettled)) else
    var k := BucketKey(r.key);
    var r' := r.(status := Refunded, expiresAt := nowMs + RESERVATION_TTL);
    (Saved(b, ModeAxes(r.split), k, CreditOn(b, k, r.limits, nowMs, r.reserved)).(res := b.res[id := r']),
     Ok(()))
  }

  /** How much of a preferred chunk to take from what is available. */
  function WantGot(avail: int, min: int, chunk: int): int {
    var want := if chunk > min then chunk else min;
    if avail < want then avail else want
  }

  function Avail(b: Books, a: Axis, k: string, limits: Amounts, nowMs: int): int {
    Whole(b.Load(a, k, limits, nowMs).tokens)
  }

  function Got(b: Books, a: Axis, k: string, limits: Amounts, nowMs: int, spec: BorrowSpec): int {
    WantGot(Avail(b, a, k, limits, nowMs), spec.min.At(a), spec.chunk.At(a))
  }

  function GotEach(b: Books, k: string, limits: Amounts, nowMs: int, spec: BorrowSpec): Amounts {
    Each(a => Got(b, a, k, limits, nowMs, spec))
  }

  /** Take a chunk on every axis of the mode, or nothing.  The verdicts of the debits are not looked at. */
  function Borrow(b: Books, nowMs: int, key: Key, limits: Amounts, spec0: BorrowSpec): (Books, Result<BorrowResult>) {
    if !ValidLimits(limits) || key.subject == "" then (b, Err(InvalidArgument)) else
    var spec := BorrowSpec(spec0.min.Clamped(), spec0.chunk.Clamped());
    var split := Split(limits);
    var k := BucketKey(key);
    match FirstFailing(split, a => Avail(b, a, k, limits, nowMs) >= spec.min.At(a))
    case Some(bad) =>
      var retryMs := Consumed(b, bad, k, limits, nowMs, spec.min).1.retryMs;
      (b, Ok(BorrowResult(false, On(bad), ZERO, Shown(split, Each(a => Avail(b, a, k, limits, nowMs))),
                          retryMs, Shown(split, limits))))
    case None =>
      var got := Masked(split, GotEach(b, k, limits, nowMs, spec));
      var b' := Saved(b, ModeAxes(split), k, ConsumeOn(b, k, limits, nowMs, got));
      var remaining := Each(a => Whole(Consumed(b, a, k, limits, nowMs, got).0.tokens));
      (b', Ok(BorrowResult(true, NoLimit, got, Shown(split, remaining), 0, Shown(split, limits))))
  }

  function Return(b: Books, nowMs: int, key: Key, limits: Amounts, add: Amounts): (Books, Result<()>) {
    if key.subject == "" then (b, Err(InvalidArgument))
    else if add.rpm <= 0 && add.tpm <= 0 && add.itpm <= 0 && add.otpm <= 0 then (b, Ok(())) else
    var k := BucketKey(key);
    (Saved(b, ModeAxes(Split(limits)), k, CreditOn(b, k, limits, nowMs, add)), Ok(()))
  }

  /** A call on the store. */
  datatype Call =
    | CheckCall(key: Key, limits: Amounts, cost: Amounts, id: string)
    | SettleCall(id: string, split: bool, actual: Amounts)
    | RefundCall(id: string)
    | BorrowCall(key: Key, limits: Amounts, spec: BorrowSpec)
    | ReturnCall(key: Key, limits: Amounts, add: Amounts)

  /** How a store call ends: as it should, refused before any effect, or carried out with the reply lost. */
  datatype Fault = NoFault | NotSent | ReplyLost

  /** What the caller of a store call sees, and what the call leaves behind. */
  function Sent<T>(fault: Fault, before: Books, after: (Books, Result<T>)): (Books, Result<T>) {
    match fault
    case NoFault => after
    case NotSent => (before, Err(Unavailable))
    case ReplyLost => (after.0, Err(Unavailable))
  }

  /** The books after a call. */
  function Exec(b: Books, nowMs: int, c: Call): Books {
    match c
    case CheckCall(key, limits, cost, id) => Check(b, nowMs, key, limits, cost, id).0
    case SettleCall(id, split, actual) => Settle(b, nowMs, id, split, actual).0
    case RefundCall(id) => Refund(b, nowMs, id).0
    case BorrowCall(key, limits, spec) => Borrow(b, nowMs, key, limits, spec).0
    case ReturnCall(key, limits, add) => Return(b, nowMs, key, limits, add).0
  }
}
