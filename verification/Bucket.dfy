/** Token buckets over integers.  A level counts units of 1/60000 token, so that a bucket of the
    given per-minute capacity gains exactly `capacity` units per millisecond. */
module Bucket {
  import opened Quota

  const UNIT := 60_000

  datatype State = State(tokens: int, lastMs: int, capacity: int)

  datatype Outcome = Outcome(allowed: bool, remaining: int, retryMs: int)

  /** Units gained in the given number of milliseconds. */
  function Gain(capacity: int, ms: int): int {
    capacity * ms
  }

  function Refill(s: State, nowMs: int): State {
    if s.capacity <= 0 then s.(tokens := 0, lastMs := nowMs)
    else if s.lastMs == 0 then s.(tokens := s.capacity * UNIT, lastMs := nowMs)
    else if nowMs < s.lastMs then s.(lastMs := nowMs)
    else s.(tokens := Min(s.capacity * UNIT, s.tokens + Gain(s.capacity, nowMs - s.lastMs)), lastMs := nowMs)
  }

  /** Whole tokens at a level. */
  function Whole(tokens: int): int {
    tokens / UNIT
  }

  function CeilDiv(a: int, b: int): int
    requires b > 0
  {
    -((-a) / b)
  }

  /** Milliseconds (whole seconds) until `need` tokens are there; an hour when nothing refills. */
  function RetryAfter(s: State, need: int): int {
    if s.capacity <= 0 then 3_600_000
    else if need * UNIT - s.tokens <= 0 then 0
    else CeilDiv(need * UNIT - s.tokens, s.capacity * 1000) * 1000
  }

  /** Refill, then debit `cost0` tokens if they are there.  A refused state is refilled, not debited. */
  function TryConsume(s0: State, nowMs: int, cost0: int): (State, Outcome) {
    var s := Refill(s0, nowMs);
    var cost := Clamp(cost0);
    if cost > s.capacity || s.tokens < cost * UNIT then
      (s, Outcome(false, Whole(s.tokens), RetryAfter(s, cost)))
    else
      var t := s.(tokens := s.tokens - cost * UNIT);
      (t, Outcome(true, Whole(t.tokens), 0))
  }

  /** Refill, then add tokens up to capacity. */
  function Credit(s0: State, nowMs: int, amount: int): State {
    var s := Refill(s0, nowMs);
    if amount <= 0 then s
    else s.(tokens := Min(s.capacity * UNIT, s.tokens + amount * UNIT))
  }

  /** Refill, then debit as many whole tokens as are there.  Returns (state, debited, overshoot). */
  function DebitFloor(s0: State, nowMs: int, amount: int): (State, int, int) {
    var s := Refill(s0, nowMs);
    if amount <= 0 then (s, 0, 0)
    else
      var avail := Whole(s.tokens);
      if avail >= amount then (s.(tokens := s.tokens - amount * UNIT), amount, 0)
      else (s.(tokens := Max(0, s.tokens - avail * UNIT)), avail, amount - avail)
  }

  lemma GainIsMonotone(capacity: int, bound: int, ms: int)
    requires 0 <= capacity <= bound && 0 <= ms
    ensures 0 <= Gain(capacity, ms) <= Gain(bound, ms)
  {
  }

  lemma RefillIsNonNegative(s: State, nowMs: int)
    requires s.tokens >= 0
    ensures Refill(s, nowMs).tokens >= 0
  {
    if s.capacity > 0 && nowMs >= s.lastMs {
      GainIsMonotone(s.capacity, s.capacity, nowMs - s.lastMs);
    }
  }
}
