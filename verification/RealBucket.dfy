/** The bucket arithmetic as it is written: levels in tokens, time in seconds, a 1e-9 slack in the
    comparison.  Floating point is read as exact real arithmetic.  The lemmas show that the integer
    buckets of module Bucket compute the same thing, so every level lies on the 1/60000 grid and the
    slack never matters. */
module RealBucket {
  import opened Quota
  import B = Bucket

  datatype State = State(tokens: real, lastMs: int, capacity: int)

  const SLACK: real := 0.000000001

  function RefillPerSec(capacity: int): real {
    if capacity <= 0 then 0.0 else capacity as real / 60.0
  }

  function RealMin(x: real, y: real): real {
    if x <= y then x else y
  }

  function Ceil(x: real): int {
    -((-x).Floor)
  }

  function Refill(s: State, nowMs: int): State {
    if s.capacity <= 0 then s.(tokens := 0.0, lastMs := nowMs)
    else if s.lastMs == 0 then s.(tokens := s.capacity as real, lastMs := nowMs)
    else if nowMs < s.lastMs then s.(lastMs := nowMs)
    else
      var elapsed := (nowMs - s.lastMs) as real / 1000.0;
      var rate := RefillPerSec(s.capacity);
      s.(tokens := RealMin(s.capacity as real, s.tokens + elapsed * rate), lastMs := nowMs)
  }

  function RetryAfter(s: State, need: real): int {
    var rate := RefillPerSec(s.capacity);
    if rate <= 0.0 then 3_600_000
    else
      var deficit := need - s.tokens;
      if deficit <= 0.0 then 0 else Ceil(deficit / rate) * 1000
  }

  function TryConsume(s0: State, nowMs: int, cost0: int): (State, B.Outcome) {
    var s := Refill(s0, nowMs);
    var remaining := s.tokens.Floor;
    var cost := if cost0 < 0 then 0 else cost0;
    if cost > s.capacity then (s, B.Outcome(false, remaining, RetryAfter(s, cost as real)))
    else if s.tokens + SLACK < cost as real then (s, B.Outcome(false, remaining, RetryAfter(s, cost as real)))
    else
      var t := s.(tokens := s.tokens - cost as real);
      (t, B.Outcome(true, t.tokens.Floor, 0))
  }

  function Credit(s0: State, nowMs: int, amount: int): State {
    var s := Refill(s0, nowMs);
    if amount <= 0 then s
    else s.(tokens := RealMin(s.capacity as real, s.tokens + amount as real))
  }

  function DebitFloor(s0: State, nowMs: int, amount: int): (State, int, int) {
    var s := Refill(s0, nowMs);
    if amount <= 0 then (s, 0, 0)
    else
      var avail := s.tokens.Floor;
      if avail >= amount then (s.(tokens := s.tokens - amount as real), amount, 0)
      else
        var rest := s.tokens - avail as real;
        (s.(tokens := if rest < 0.0 then 0.0 else rest), avail, amount - avail)
  }

  /** The real bucket an integer bucket stands for. */
  function Scale(s: B.State): State {
    State(s.tokens as real / 60000.0, s.lastMs, s.capacity)
  }

  lemma ProductAsReal(a: int, b: int)
    ensures (a * b) as real == a as real * b as real
  {
  }

  lemma FloorOnGrid(n: int)
    ensures (n as real / 60000.0).Floor == B.Whole(n)
  {
    var q, r := n / 60000, n % 60000;
    assert n == 60000 * q + r;
    assert n as real / 60000.0 == q as real + r as real / 60000.0;
  }

  lemma CeilOfQuotient(a: int, b: int)
    requires b > 0
    ensures Ceil(a as real / b as real) == B.CeilDiv(a, b)
  {
    var q, r := (-a) / b, (-a) % b;
    assert -a == b * q + r;
    ProductAsReal(b, q);
    assert (-a) as real == b as real * q as real + r as real;
    assert (-(a as real)) / b as real == q as real + r as real / b as real;
    assert 0.0 <= r as real / b as real < 1.0;
    assert -(a as real / b as real) == (-(a as real)) / b as real;
  }

  lemma RefillScales(s: B.State, nowMs: int)
    ensures Refill(Scale(s), nowMs) == Scale(B.Refill(s, nowMs))
  {
    if s.capacity > 0 && s.lastMs != 0 && nowMs >= s.lastMs {
      var ms := nowMs - s.lastMs;
      ProductAsReal(s.capacity, ms);
      assert (ms as real / 1000.0) * (s.capacity as real / 60.0) == B.Gain(s.capacity, ms) as real / 60000.0;
    }
  }

  lemma RetryScales(s: B.State, need: int)
    ensures RetryAfter(Scale(s), need as real) == B.RetryAfter(s, need)
  {
    if s.capacity > 0 {
      var d := need * B.UNIT - s.tokens;
      var q := s.capacity * 1000;
      assert need as real - Scale(s).tokens == d as real / 60000.0;
      assert (d as real / 60000.0) / (s.capacity as real / 60.0) == d as real / q as real;
      CeilOfQuotient(d, q);
    }
  }

  /** Consuming gives the same verdict, remaining count, wait and level: the slack changes nothing. */
  lemma ConsumeScales(s: B.State, nowMs: int, cost: int)
    ensures TryConsume(Scale(s), nowMs, cost).0 == Scale(B.TryConsume(s, nowMs, cost).0)
    ensures TryConsume(Scale(s), nowMs, cost).1 == B.TryConsume(s, nowMs, cost).1
  {
    RefillScales(s, nowMs);
    var t := B.Refill(s, nowMs);
    var c := Clamp(cost);
    FloorOnGrid(t.tokens);
    RetryScales(t, c);
    FloorOnGrid(t.tokens - c * B.UNIT);
    SlackIsHarmless(t.tokens, c);
    assert (t.tokens - c * B.UNIT) as real / 60000.0 == t.tokens as real / 60000.0 - c as real;
  }

  /** On the grid, adding the slack never turns a refusal into an admission. */
  lemma SlackIsHarmless(units: int, cost: int)
    ensures units as real / 60000.0 + SLACK < cost as real <==> units < cost * B.UNIT
  {
    if units < cost * B.UNIT {
      assert units + 1 <= cost * 60000;
      assert (units + 1) as real <= (cost * 60000) as real;
      assert units as real / 60000.0 + 1.0 / 60000.0 <= cost as real;
    } else {
      assert units as real >= (cost * 60000) as real;
    }
  }

  lemma CreditScales(s: B.State, nowMs: int, amount: int)
    ensures Credit(Scale(s), nowMs, amount) == Scale(B.Credit(s, nowMs, amount))
  {
    RefillScales(s, nowMs);
  }

  lemma DebitFloorScales(s: B.State, nowMs: int, amount: int)
    ensures DebitFloor(Scale(s), nowMs, amount) ==
            var (t, debited, overshoot) := B.DebitFloor(s, nowMs, amount);
            (Scale(t), debited, overshoot)
  {
    RefillScales(s, nowMs);
    FloorOnGrid(B.Refill(s, nowMs).tokens);
  }

  /** One call on a bucket, under whatever capacity the caller passes. */
  datatype Call = Consume(capacity: int, nowMs: int, cost: int)
                | Add(capacity: int, nowMs: int, amount: int)
                | Drain(capacity: int, nowMs: int, amount: int)

  function Apply(s0: State, c: Call): State {
    var s := s0.(capacity := c.capacity);
    match c
    case Consume(_, nowMs, cost) => TryConsume(s, nowMs, cost).0
    case Add(_, nowMs, amount) => Credit(s, nowMs, amount)
    case Drain(_, nowMs, amount) => DebitFloor(s, nowMs, amount).0
  }

  function Run(s: State, calls: seq<Call>): State
    decreases |calls|
  {
    if calls == [] then s else Run(Apply(s, calls[0]), calls[1..])
  }

  /** n units, in tokens. */
  function Tokens(n: int): real {
    n as real / 60000.0
  }

  ghost predicate OnGrid(tokens: real) {
    exists n: int :: tokens == Tokens(n)
  }

  /** The integer call with the same arguments. */
  function Mirror(u0: B.State, c: Call): B.State {
    var u := u0.(capacity := c.capacity);
    match c
    case Consume(_, nowMs, cost) => B.TryConsume(u, nowMs, cost).0
    case Add(_, nowMs, amount) => B.Credit(u, nowMs, amount)
    case Drain(_, nowMs, amount) => B.DebitFloor(u, nowMs, amount).0
  }

  lemma ApplyMirrors(u: B.State, c: Call)
    ensures Apply(Scale(u), c) == Scale(Mirror(u, c))
  {
    var v := u.(capacity := c.capacity);
    assert Scale(u).(capacity := c.capacity) == Scale(v);
    match c {
      case Consume(_, nowMs, cost) => ConsumeScales(v, nowMs, cost);
      case Add(_, nowMs, amount) => CreditScales(v, nowMs, amount);
      case Drain(_, nowMs, amount) => DebitFloorScales(v, nowMs, amount);
    }
  }

  /** Whatever the calls, capacities and clock, a level stays a multiple of 1/60000 token. */
  lemma {:induction false} RunStaysOnGrid(s: State, calls: seq<Call>)
    requires OnGrid(s.tokens)
    ensures OnGrid(Run(s, calls).tokens)
    decreases |calls|
  {
    if calls != [] {
      var n: int :| s.tokens == Tokens(n);
      var u := B.State(n, s.lastMs, s.capacity);
      assert s == Scale(u);
      ApplyMirrors(u, calls[0]);
      assert Apply(s, calls[0]).tokens == Tokens(Mirror(u, calls[0]).tokens);
      RunStaysOnGrid(Apply(s, calls[0]), calls[1..]);
    }
  }

  /** A call that leaves the level where it should not be: a positive credit under a negative capacity. */
  predicate Sinks(c: Call) {
    c.Add? && c.capacity < 0 && c.amount > 0
  }

  /** From a non-negative level a call goes below zero exactly when it is such a credit. */
  lemma BelowZeroIffSinks(u: B.State, c: Call)
    requires u.tokens >= 0
    ensures Apply(Scale(u), c).tokens < 0.0 <==> Sinks(c)
  {
    ApplyMirrors(u, c);
    B.RefillIsNonNegative(u.(capacity := c.capacity), c.nowMs);
  }

  /** So without such credits every level of a run is non-negative. */
  lemma {:induction false} RunStaysNonNegative(u: B.State, calls: seq<Call>)
    requires u.tokens >= 0
    requires forall c | c in calls :: !Sinks(c)
    ensures Run(Scale(u), calls).tokens >= 0.0
    decreases |calls|
  {
    if calls != [] {
      ApplyMirrors(u, calls[0]);
      BelowZeroIffSinks(u, calls[0]);
      assert Scale(Mirror(u, calls[0])).tokens >= 0.0;
      RunStaysNonNegative(Mirror(u, calls[0]), calls[1..]);
    }
  }
}
