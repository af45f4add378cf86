/** Laws of a single bucket over time. */
module BucketLaws {
  import opened Quota
  import opened Bucket

  /** A state refilled at nowMs: refilling it again then changes nothing. */
  predicate Fresh(s: State, nowMs: int) {
    0 < nowMs && s.lastMs == nowMs && Refill(s, nowMs) == s
  }

  /** Refilling twice is refilling once. */
  lemma RefillTwice(s: State, t1: int, t2: int)
    requires 0 < t1 <= t2 && s.lastMs <= t1
    ensures Refill(Refill(s, t1), t2) == Refill(s, t2)
    ensures Fresh(Refill(s, t1), t1)
  {
    if s.capacity > 0 && s.lastMs != 0 {
      assert Gain(s.capacity, t1 - s.lastMs) + Gain(s.capacity, t2 - t1) == Gain(s.capacity, t2 - s.lastMs);
    }
    if s.capacity > 0 {
      GainIsMonotone(s.capacity, s.capacity, t2 - t1);
    }
  }

  /** A lower level stays lower, and the gap does not grow. */
  lemma RefillNarrows(low: State, high: State, gap: nat, t1: int, t2: int)
    requires Fresh(low, t1) && Fresh(high, t1) && low.capacity == high.capacity && t1 <= t2
    requires high.tokens - gap <= low.tokens <= high.tokens
    ensures var l, h := Refill(low, t2), Refill(high, t2);
            h.tokens - gap <= l.tokens <= h.tokens
  {
  }

  /** Reserving r and later giving back r - a leaves what consuming a at once would have left. */
  lemma ReserveThenCredit(s: State, t1: int, t2: int, r: int, a: int)
    requires Fresh(s, t1) && t1 <= t2 && 0 <= a <= r
    requires TryConsume(s, t1, r).1.allowed
    ensures TryConsume(s, t1, a).1.allowed
    ensures Credit(TryConsume(s, t1, r).0, t2, r - a) == Refill(TryConsume(s, t1, a).0, t2)
  {
  }

  // ----- a reservation undone among other traffic

  datatype Move = Spend(atMs: int, amount: nat) | Give(atMs: int, amount: nat)

  function Step(s: State, m: Move): State {
    match m
    case Spend(atMs, amount) => TryConsume(s, atMs, amount).0
    case Give(atMs, amount) => Credit(s, atMs, amount)
  }

  function Play(s: State, moves: seq<Move>): State
    decreases |moves|
  {
    if moves == [] then s else Play(Step(s, moves[0]), moves[1..])
  }

  predicate Goes(s: State, m: Move) {
    m.Spend? ==> TryConsume(s, m.atMs, m.amount).1.allowed
  }

  predicate AllGo(s: State, moves: seq<Move>)
    decreases |moves|
  {
    moves == [] || (Goes(s, moves[0]) && AllGo(Step(s, moves[0]), moves[1..]))
  }

  predicate Ordered(startMs: int, moves: seq<Move>, endMs: int)
    decreases |moves|
  {
    if moves == [] then startMs <= endMs
    else startMs <= moves[0].atMs && Ordered(moves[0].atMs, moves[1..], endMs)
  }

  lemma StepNarrows(low: State, high: State, gap: nat, t1: int, m: Move)
    requires Fresh(low, t1) && Fresh(high, t1) && 0 <= low.capacity == high.capacity && t1 <= m.atMs
    requires high.tokens - gap <= low.tokens <= high.tokens
    requires Goes(low, m)
    ensures Goes(high, m)
    ensures var l, h := Step(low, m), Step(high, m);
            Fresh(l, m.atMs) && Fresh(h, m.atMs) && l.capacity == h.capacity && h.tokens - gap <= l.tokens <= h.tokens
  {
    RefillNarrows(low, high, gap, t1, m.atMs);
    RefillTwice(low, t1, m.atMs);
    RefillTwice(high, t1, m.atMs);
  }

  lemma {:induction false} PlayNarrows(low: State, high: State, gap: nat, t1: int, moves: seq<Move>, t2: int)
    requires Fresh(low, t1) && Fresh(high, t1) && 0 <= low.capacity == high.capacity
    requires high.tokens - gap <= low.tokens <= high.tokens
    requires Ordered(t1, moves, t2) && AllGo(low, moves)
    ensures AllGo(high, moves)
    ensures var l, h := Refill(Play(low, moves), t2), Refill(Play(high, moves), t2);
            Fresh(l, t2) && Fresh(h, t2) && l.capacity == h.capacity == low.capacity &&
              h.tokens - gap <= l.tokens <= h.tokens
    decreases |moves|
  {
    if moves == [] {
      RefillNarrows(low, high, gap, t1, t2);
      RefillTwice(low, t1, t2);
      RefillTwice(high, t1, t2);
    } else {
      StepNarrows(low, high, gap, t1, moves[0]);
      PlayNarrows(Step(low, moves[0]), Step(high, moves[0]), gap, moves[0].atMs, moves[1..], t2);
    }
  }

  /** Refund transparency: reserve c, let any admitted debits and credits happen, refund c.  All that was
      admitted would have been admitted without the reservation, and the level ends between the level
      without it and that level plus c, capped. */
  lemma RefundIsTransparent(s: State, t1: int, c: nat, moves: seq<Move>, t2: int)
    requires Fresh(s, t1) && Ordered(t1, moves, t2)
    requires TryConsume(s, t1, c).1.allowed && AllGo(TryConsume(s, t1, c).0, moves)
    ensures AllGo(s, moves)
    ensures var undone := Credit(Play(TryConsume(s, t1, c).0, moves), t2, c);
            var never := Refill(Play(s, moves), t2);
            never.tokens <= undone.tokens <= Min(s.capacity * UNIT, never.tokens + c * UNIT)
  {
    hide Play, AllGo, Ordered, TryConsume, Gain, Credit, Refill;
    var reserved := TryConsume(s, t1, c).0;
    ReservedIsFresh(s, t1, c);
    PlayNarrows(reserved, s, c * UNIT, t1, moves, t2);
    CreditCloses(Play(reserved, moves), Refill(Play(s, moves), t2), c, t2);
  }

  lemma ReservedIsFresh(s: State, t1: int, c: nat)
    requires Fresh(s, t1) && TryConsume(s, t1, c).1.allowed
    ensures var reserved := TryConsume(s, t1, c).0;
            Fresh(reserved, t1) && reserved.tokens == s.tokens - c * UNIT && reserved.capacity == s.capacity >= 0
  {
  }

  /** Crediting the gap to a lower state lifts it at least to the higher one. */
  lemma CreditCloses(p: State, high: State, c: nat, t: int)
    requires var low := Refill(p, t);
             Fresh(low, t) && Fresh(high, t) && 0 <= low.capacity == high.capacity &&
               high.tokens - c * UNIT <= low.tokens <= high.tokens
    ensures high.tokens <= Credit(p, t, c).tokens <= Min(high.capacity * UNIT, high.tokens + c * UNIT)
  {
    hide Gain;
  }

  /** With nothing in between a refund leaves exactly the bucket that never saw the reservation. */
  lemma RefundUndoes(s: State, t1: int, c: nat, t2: int)
    requires Fresh(s, t1) && t1 <= t2 && TryConsume(s, t1, c).1.allowed
    ensures Credit(TryConsume(s, t1, c).0, t2, c) == Refill(s, t2)
  {
    ReserveThenCredit(s, t1, t2, c, 0);
  }

  // ----- waiting

  lemma CeilBounds(a: int, b: int)
    requires b > 0
    ensures (CeilDiv(a, b) - 1) * b < a <= CeilDiv(a, b) * b
  {
    var q, r := (-a) / b, (-a) % b;
    assert -a == b * q + r;
    assert CeilDiv(a, b) == -q;
    assert CeilDiv(a, b) * b == a + r;
    assert (CeilDiv(a, b) - 1) * b == CeilDiv(a, b) * b - b;
  }

  /** The wait is enough: nothing else happening, the cost is there once it is over. */
  lemma WaitIsEnough(s: State, t1: int, cost: nat, t2: int)
    requires Fresh(s, t1) && cost <= s.capacity && !TryConsume(s, t1, cost).1.allowed
    requires t2 >= t1 + TryConsume(s, t1, cost).1.retryMs
    ensures t1 <= t2 && TryConsume(s, t2, cost).1.allowed
  {
    var q, d := s.capacity * 1000, cost * UNIT - s.tokens;
    CeilBounds(d, q);
    assert Gain(s.capacity, CeilDiv(d, q) * 1000) == CeilDiv(d, q) * q;
    GainGrows(s.capacity, CeilDiv(d, q) * 1000, t2 - t1);
  }

  lemma GainGrows(capacity: nat, ms1: int, ms2: int)
    requires ms1 <= ms2
    ensures Gain(capacity, ms1) <= Gain(capacity, ms2)
  {
  }

  /** The wait is tight to one second: even with no traffic the level is still short a second earlier. */
  lemma WaitIsTight(s: State, t1: int, cost: nat, t2: int)
    requires Fresh(s, t1) && s.capacity > 0 && s.tokens < cost * UNIT
    requires t1 <= t2 <= t1 + RetryAfter(s, cost) - 1000
    ensures s.tokens + Gain(s.capacity, t2 - t1) < cost * UNIT
    ensures !TryConsume(s, t2, cost).1.allowed
  {
    var q, d := s.capacity * 1000, cost * UNIT - s.tokens;
    CeilBounds(d, q);
    assert Gain(s.capacity, (CeilDiv(d, q) - 1) * 1000) == (CeilDiv(d, q) - 1) * q;
    GainGrows(s.capacity, t2 - t1, (CeilDiv(d, q) - 1) * 1000);
  }

  /** A bucket that nothing refills asks for an hour's patience, and refuses again whenever it is asked. */
  lemma NothingRefills(s: State, t1: int, cost: nat, t2: int)
    requires s.capacity <= 0 && cost > 0
    ensures var (t, out) := TryConsume(s, t1, cost);
            out == Outcome(false, 0, 60 * 60 * 1000) && !TryConsume(t, t2, cost).1.allowed
  {
  }

  /** What is there stays there while nothing is taken. */
  lemma AdmittedStaysAdmitted(s: State, t1: int, cost: nat, t2: int)
    requires Fresh(s, t1) && t1 <= t2 && TryConsume(s, t1, cost).1.allowed
    ensures TryConsume(s, t2, cost).1.allowed
  {
    if s.capacity > 0 {
      GainIsMonotone(s.capacity, s.capacity, t2 - t1);
    }
  }
}
