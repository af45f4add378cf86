/** What a pool's replies tell the caller: the counts are what the lease holds after the step, and errors follow from
    the reservation's mode and status alone. */
module PoolReplies {
  import opened Quota
  import opened StoreSpec
  import opened PoolSpec
  import opened PoolLedger
  import opened Fleet
  import opened FleetLedger
  import opened LeaseBounds
  import opened Replies

  /** Nothing but what has expired is gone. */
  predicate OnlyForgets(p: Pool, q: Pool) {
    p.cfg == q.cfg &&
    (forall k | k in q.leases :: k in p.leases && q.leases[k] == p.leases[k]) &&
    (forall id | id in q.res :: id in p.res && q.res[id] == p.res[id])
  }

  /** A lease has the cost on every axis of the mode. */
  predicate HasCost(balance: Amounts, limits: Amounts, cost: Amounts) {
    balance.rpm >= cost.rpm &&
    if limits.itpm > 0 && limits.otpm > 0 then balance.itpm >= cost.itpm && balance.otpm >= cost.otpm
    else balance.tpm >= cost.tpm
  }

  /** The balance less the cost on the axes of the mode. */
  function LessCost(balance: Amounts, limits: Amounts, cost: Amounts): Amounts {
    if limits.itpm > 0 && limits.otpm > 0
    then Amounts(balance.rpm - cost.rpm, balance.tpm, balance.itpm - cost.itpm, balance.otpm - cost.otpm)
    else Amounts(balance.rpm - cost.rpm, balance.tpm - cost.tpm, balance.itpm, balance.otpm)
  }

  // ----- debits

  /** A debit goes through exactly when a live lease has the cost.  It then takes the cost, records the reservation for
      fifteen minutes, and reports what is left in the lease; otherwise it only forgets what has expired. */
  lemma DebitShows(p: Pool, nowMs: int, key: Key, limits: Amounts, cost: Amounts, id: string)
    ensures var (q, decision) := TryDebit(p, nowMs, key, limits, cost, id);
            var k := BucketKey(key);
            (decision.Some? <==> Live(p, k, nowMs) && HasCost(p.leases[k].balance, limits, cost)) &&
            if decision.None? then OnlyForgets(p, q)
            else
              var d := decision.value;
              k in q.leases && q.leases[k].balance == LessCost(p.leases[k].balance, limits, cost) &&
              (forall other | other in q.leases && other != k ::
                 other in p.leases && q.leases[other] == p.leases[other]) &&
              id in q.res && q.res[id].key == key && q.res[id].limits == limits && q.res[id].reserved == cost &&
              q.res[id].split == (limits.itpm > 0 && limits.otpm > 0) &&
              q.res[id].status == Pending && q.res[id].expiresAt == nowMs + 15 * 60 * 1000 &&
              (forall other | other in q.res && other != id :: other in p.res && q.res[other] == p.res[other]) &&
              d.allowed && d.limitType == NoLimit && d.retryMs == 0 && d.reservationId == id && d.overshoot == ZERO &&
              Shows(d.remaining, limits, q.leases[k].balance) && Shows(d.limit, limits, limits)
  {
    hide BucketKey;
  }

  // ----- settlements and refunds

  /** A local settlement that finishes its reservation reports what it puts on record: what is left in the lease, and on
      each token axis what neither the reservation nor the lease could cover. */
  lemma LocalSettleShows(p: Pool, nowMs: int, id: string, split: bool, actual: Amounts)
    requires Sound(p) && ActsOn(p, nowMs, id, split)
    ensures var r := p.res[id];
            var k := BucketKey(r.key);
            var (q, reply) := SettleLocal(p, nowMs, id, split, actual);
            reply.Ok? && id in q.res && q.res[id].last == reply.value && q.res[id].status == Settled &&
            q.res[id].expiresAt == nowMs + 15 * 60 * 1000 && k in q.leases &&
            var d := reply.value;
            d.allowed && d.limitType == NoLimit && d.retryMs == 0 && d.reservationId == id &&
            Shows(d.remaining, r.limits, q.leases[k].balance) && Shows(d.limit, r.limits, r.limits) &&
            (forall a: Axis ::
               d.overshoot.At(a) ==
               if a in TokenAxes(split)
               then Max(0, Clamp(actual.At(a)) - r.reserved.At(a) - LevelOf(p, nowMs, Slot(a, k))) else 0)
  {
    hide SettleLocal, Prepared, Sound, BucketKey, TokenAxes;
    var k := BucketKey(p.res[id].key);
    SoundParts(p, k, id);
    LocalSettleDecides(p, nowMs, id, split, actual);
    SettleShape(p, nowMs, id, split, actual);
    PreparedStock(p, nowMs, k, Slot(Rpm, k));
    var before := WorkingLease(Prepared(p, nowMs, k), p.res[id], nowMs).balance;
    forall a: Axis
      ensures before.At(a) == LevelOf(p, nowMs, Slot(a, k)) && before.At(a) >= 0 && p.res[id].reserved.At(a) >= 0
    {
      ByAxisNonNegative(p.res[id].reserved, a);
      LevelIsLess(p, nowMs, Slot(a, k));
    }
    SpentOn(split, actual);
  }

  lemma SpentOn(split: bool, actual: Amounts)
    ensures forall a | a in TokenAxes(split) :: Masked(split, actual.Clamped()).(rpm := 0).At(a) == Clamp(actual.At(a))
  {
  }

  lemma LocalSettleDecides(p: Pool, nowMs: int, id: string, split: bool, actual: Amounts)
    requires ActsOn(p, nowMs, id, split) && p.res[id].split == Split(p.res[id].limits)
    ensures var r := p.res[id];
            var k := BucketKey(r.key);
            var (q, reply) := SettleLocal(p, nowMs, id, split, actual);
            reply.Ok? && id in q.res && q.res[id].last == reply.value && k in q.leases &&
            var d := reply.value;
            d.allowed && d.limitType == NoLimit && d.retryMs == 0 && d.reservationId == id &&
            Shows(d.remaining, r.limits, q.leases[k].balance) && Shows(d.limit, r.limits, r.limits)
  {
    hide BucketKey, LocalDelta, Swept, Masked, DeltaOn;
  }

  /** A local settlement's answer follows from the reservation alone. */
  lemma LocalSettleAnswers(p: Pool, nowMs: int, id: string, split: bool, actual: Amounts)
    ensures var (q, reply) := SettleLocal(p, nowMs, id, split, actual);
            if id !in p.res || nowMs > p.res[id].expiresAt then reply == Err(ReservationNotFound) && OnlyForgets(p, q)
            else if p.res[id].split != split then reply == Err(WrongSettleMode) && OnlyForgets(p, q)
            else if p.res[id].status == Settled then reply == Ok(p.res[id].last) && OnlyForgets(p, q)
            else if p.res[id].status == Refunded then reply == Err(ReservationRefunded) && OnlyForgets(p, q)
            else reply.Ok?
  {
    hide BucketKey, LocalDelta, Swept, Masked, DeltaOn, Shown, Each, WorkingLease;
  }

  /** And so does a local refund's, which gives back what was reserved on the axes of the mode. */
  lemma LocalRefundAnswers(p: Pool, nowMs: int, id: string)
    ensures var (q, reply) := RefundLocal(p, nowMs, id);
            if id !in p.res || nowMs > p.res[id].expiresAt then reply == Err(ReservationNotFound) && OnlyForgets(p, q)
            else if p.res[id].status == Settled then reply == Err(ReservationSettled) && OnlyForgets(p, q)
            else if p.res[id].status == Refunded then reply == Ok(()) && OnlyForgets(p, q)
            else
              var r := p.res[id];
              var k := BucketKey(r.key);
              var had := if Live(p, k, nowMs) then p.leases[k].balance else ZERO;
              reply == Ok(()) && id in q.res && q.res[id].status == Refunded &&
              q.res[id].expiresAt == nowMs + 15 * 60 * 1000 && k in q.leases &&
              q.leases[k].balance ==
                if r.split
                then Amounts(had.rpm + r.reserved.rpm, had.tpm, had.itpm + r.reserved.itpm, had.otpm + r.reserved.otpm)
                else Amounts(had.rpm + r.reserved.rpm, had.tpm + r.reserved.tpm, had.itpm, had.otpm)
  {
    hide BucketKey;
  }

  // ----- deficit grants

  /** A grant that is applied to a live lease pays what is on record, axis by axis, and the record then shows what is
      left of both. */
  lemma ApplyShows(p: Pool, nowMs: int, id: string, split: bool, got: Amounts)
    requires Sound(p) && got.NonNegative() && id in p.res && p.res[id].split == split
    requires Live(p, BucketKey(p.res[id].key), nowMs)
    requires Shows(p.res[id].last.remaining, p.res[id].limits, p.res[id].last.remaining)
    ensures var r := p.res[id];
            var k := BucketKey(r.key);
            var had := p.leases[k].balance;
            var q := ApplyDeficit(p, nowMs, id, split, got);
            k in q.leases && id in q.res &&
            q.res[id] ==
              r.(last := r.last.(remaining := q.res[id].last.remaining, overshoot := q.res[id].last.overshoot)) &&
            Shows(q.res[id].last.remaining, r.limits, q.leases[k].balance) &&
            (forall a: Axis ::
               if a in TokenAxes(split) then
                 q.leases[k].balance.At(a) == Max(0, had.At(a) + got.At(a) - r.last.overshoot.At(a)) &&
                 q.res[id].last.overshoot.At(a) == Max(0, r.last.overshoot.At(a) - had.At(a) - got.At(a))
               else
                 q.leases[k].balance.At(a) == had.At(a) && q.res[id].last.overshoot.At(a) == r.last.overshoot.At(a))
  {
    hide BucketKey;
    assert SoundReservation(p.res[id]);
  }

  // ----- limits

  /** A settlement or refund that finishes a reservation whose lease is gone starts a new one. */
  predicate Restarts(th: Thread, p: Pool, nowMs: int, k: string) {
    (th.Settling? || th.Refunding?) && th.id in p.res && BucketKey(p.res[th.id].key) == k && !Live(p, k, nowMs) &&
    p.res[th.id].status == Pending && nowMs <= p.res[th.id].expiresAt &&
    (th.Settling? ==> p.res[th.id].split == th.split)
  }

  /** The limits a lease goes back to the store under are those of the last credit, or those of the reservation for
      which a settlement or refund started it: no other step touches them, and closing hands them out with the
      balance. */
  lemma LeaseLimits(th: Thread, p: Pool, failOpen: bool, input: Input, k: string)
    requires Owner(th).Some? && !AtStore(th)
    ensures var (th', q) := PoolStep(th, p, failOpen, input);
            (k in q.leases ==>
               if (th.Crediting? || th.CreditingDeficit?) && BucketKey(th.key) == k then q.leases[k].limits == th.limits
               else if Restarts(th, p, input.clockMs, k) then q.leases[k].limits == p.res[th.id].limits
               else k in p.leases && q.leases[k].limits == p.leases[k].limits) &&
            (th.Closing? && k in th'.pending ==>
               k in p.leases && th'.pending[k].limits == p.leases[k].limits &&
               th'.pending[k].balance == p.leases[k].balance)
  {
    hide BucketKey, Shown, Each, DeltaOn, Masked, Absorb, Covers;
  }

  // ----- deny list

  /** A refusal that is noted is found until its wait is over, a second when it names none, with the time that is left;
      then it is forgotten.  Other keys are not affected. */
  lemma NotedIsFound(p: Pool, key: Key, why: LimitType, retryMs: int, t1: int, t2: int, other: Key)
    ensures var noted := DenySet(p, t1, key, why, retryMs);
            var (q, hit) := DenyGet(noted, t2, key);
            var untilMs := if retryMs > 0 then t1 + retryMs else t1 + 1000;
            hit == (if t2 < untilMs then Some((why, untilMs - t2)) else None) &&
            (hit.None? ==> BucketKey(key) !in q.deny) && q.(deny := p.deny) == p &&
            (BucketKey(other) != BucketKey(key) ==>
               DenyGet(noted, t2, other).1 == DenyGet(p, t2, other).1 == DenyGet(q, t2, other).1)
  {
    hide BucketKey;
  }

  // ----- configuration

  /** Unset chunks and lease lifetimes get their defaults; a complete configuration is kept. */
  lemma Defaults(cfg: Config)
    ensures Normalized(Config(ZERO, 0)) == Config(Amounts(5, 500, 500, 500), 2000)
    ensures Normalized(cfg) == cfg <==>
            cfg.chunk.rpm > 0 && cfg.chunk.tpm > 0 && cfg.chunk.itpm > 0 && cfg.chunk.otpm > 0 && cfg.leaseTtlMs > 0
  {
  }
}
