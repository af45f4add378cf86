/** The pool of one pod: leases, local reservations and the deny cache, updated in place.  Every method is
    one critical section and is proved to do what module PoolSpec says. */
module LeasePool {
  import opened Quota
  import opened StoreSpec
  import P = PoolSpec

  /** Remembers keys known to be over a limit, until an instant. */
  class DenyCache {
    var byKey: map<string, P.DenyEntry>

    constructor ()
      ensures byKey == map[]
    {
      byKey := map[];
    }

    method Get(nowMs: int, key: Key) returns (hit: Option<(LimitType, int)>)
      modifies this
      ensures forall p: P.Pool | p.deny == old(byKey) :: P.DenyGet(p, nowMs, key) == (p.(deny := byKey), hit)
    {
      var k := BucketKey(key);
      if k !in byKey {
        return None;
      }
      var e := byKey[k];
      if !(nowMs < e.untilMs) {
        byKey := byKey - {k};
        return None;
      }
      return Some((e.limitType, e.untilMs - nowMs));
    }

    method Set(nowMs: int, key: Key, limitType: LimitType, retryMs0: int)
      modifies this
      ensures forall p: P.Pool | p.deny == old(byKey) ::
              P.DenySet(p, nowMs, key, limitType, retryMs0) == p.(deny := byKey)
    {
      var retryMs := retryMs0;
      if retryMs <= 0 {
        retryMs := 1000;
      }
      byKey := byKey[BucketKey(key) := P.DenyEntry(nowMs + retryMs, limitType)];
    }

    method Clear(key: Key)
      modifies this
      ensures byKey == old(byKey) - {BucketKey(key)}
    {
      byKey := byKey - {BucketKey(key)};
    }
  }

  class Pool {
    const cfg: P.Config
    const deny: DenyCache
    var leases: map<string, P.Lease>
    var res: map<string, Reservation>

    ghost function View(): P.Pool
      reads this, deny
    {
      P.Pool(cfg, leases, res, deny.byKey)
    }

    constructor (config: P.Config)
      ensures View() == P.EmptyPool(config)
      ensures fresh(deny)
    {
      cfg := P.Normalized(config);
      deny := new DenyCache();
      leases, res := map[], map[];
    }

    method PurgeReservations(nowMs: int)
      modifies this`res
      ensures View() == P.PurgedPool(old(View()), nowMs)
    {
      var ids := res.Keys;
      ghost var before := res;
      while ids != {}
        invariant ids <= before.Keys
        invariant res == map id | id in before && (id in ids || !(nowMs > before[id].expiresAt)) :: before[id]
        decreases |ids|
      {
        var id :| id in ids;
        if nowMs > res[id].expiresAt {
          res := map other | other in res && other != id :: res[other];
        }
        ids := ids - {id};
      }
      assert res == Unexpired(before, nowMs);
    }

    /** Find a lease, deleting it when it has lapsed. */
    method GetLease(key: Key, nowMs: int) returns (lease: Option<P.Lease>)
      modifies this`leases
      ensures View() == P.Swept(old(View()), BucketKey(key), nowMs)
      ensures lease == if P.Live(old(View()), BucketKey(key), nowMs) then Some(old(leases)[BucketKey(key)]) else None
      ensures lease == if BucketKey(key) in leases then Some(leases[BucketKey(key)]) else None
    {
      var k := BucketKey(key);
      if k !in leases {
        return None;
      }
      var b := leases[k];
      if !(nowMs < b.expiresAt) {
        leases := leases - {k};
        return None;
      }
      return Some(b);
    }

    method Has(nowMs: int, key: Key, cost: Amounts, limits: Amounts) returns (covered: bool)
      modifies this`leases
      ensures (View(), covered) == P.Has(old(View()), nowMs, key, cost, limits)
    {
      var b := GetLease(key, nowMs);
      covered := b.Some? && P.Covers(b.value.balance, cost, Split(limits));
    }

    method CreditLease(nowMs: int, key: Key, limits: Amounts, rpm: int, tpm: int, itpm: int, otpm: int)
      modifies this`leases
      ensures View() == P.CreditLease(old(View()), nowMs, key, limits, Amounts(rpm, tpm, itpm, otpm))
    {
      var k := BucketKey(key);
      var balance := ZERO;
      if k in leases && nowMs < leases[k].expiresAt {
        balance := leases[k].balance;
      }
      balance := Amounts(balance.rpm + rpm, balance.tpm + tpm, balance.itpm + itpm, balance.otpm + otpm);
      leases := leases[k := P.Lease(balance, limits, nowMs + cfg.leaseTtlMs)];
    }

    method TryDebit(nowMs: int, key: Key, limits: Amounts, cost: Amounts,
                    id: string) returns (decision: Option<Decision>)
      modifies this`leases, this`res
      ensures (View(), decision) == P.TryDebit(old(View()), nowMs, key, limits, cost, id)
    {
      PurgeReservations(nowMs);
      var b := GetLease(key, nowMs);
      var split := Split(limits);
      if !(b.Some? && P.Covers(b.value.balance, cost, split)) {
        return None;
      }
      var balance := b.value.balance;
      balance := balance.(rpm := balance.rpm - cost.rpm);
      if split {
        balance := balance.(itpm := balance.itpm - cost.itpm);
        balance := balance.(otpm := balance.otpm - cost.otpm);
      } else {
        balance := balance.(tpm := balance.tpm - cost.tpm);
      }
      leases := leases[BucketKey(key) := b.value.(balance := balance, expiresAt := nowMs + cfg.leaseTtlMs)];
      res := res[id := Reservation(key, split, cost, limits, ZERO, Pending, NO_DECISION, nowMs + RESERVATION_TTL)];
      var dec := Decision(true, NoLimit, Amounts(balance.rpm, 0, 0, 0), Amounts(limits.rpm, 0, 0, 0), 0, id, ZERO);
      if split {
        dec := dec.(remaining := Amounts(balance.rpm, balance.otpm, balance.itpm, balance.otpm),
                    limit := Amounts(limits.rpm, limits.otpm, limits.itpm, limits.otpm));
      } else {
        dec := dec.(remaining := Amounts(balance.rpm, balance.tpm, 0, 0),
                    limit := Amounts(limits.rpm, limits.tpm, 0, 0));
      }
      return Some(dec);
    }

    method GetReservation(nowMs: int, id: string) returns (r: Option<Reservation>)
      modifies this`res
      ensures (View(), r) == P.GetReservation(old(View()), nowMs, id)
    {
      PurgeReservations(nowMs);
      r := if id in res then Some(res[id]) else None;
    }

    method SettleLocal(nowMs: int, id: string, actualTokens0: int) returns (reply: Result<Decision>)
      modifies this`leases, this`res, deny
      ensures (View(), reply) == P.SettleLocal(old(View()), nowMs, id, false, Amounts(0, actualTokens0, 0, 0))
    {
      hide P.Swept, P.PurgedPool, P.Live;
      PurgeReservations(nowMs);
      if id !in res {
        return Err(ReservationNotFound);
      }
      var r := res[id];
      if r.split {
        return Err(WrongSettleMode);
      }
      if r.status == Settled {
        return Ok(r.last);
      }
      if r.status == Refunded {
        return Err(ReservationRefunded);
      }
      var actualTokens := Clamp(actualTokens0);
      var found := GetLease(r.key, nowMs);
      var b := if found.Some? then found.value else P.Lease(ZERO, r.limits, nowMs + cfg.leaseTtlMs);

      var tpm, overshoot, restored := b.balance.tpm, 0, false;
      var delta := r.reserved.tpm - actualTokens;
      if delta > 0 {
        tpm := tpm + delta;
        restored := true;
      } else if delta < 0 {
        var need := -delta;
        if tpm >= need {
          tpm := tpm - need;
        } else {
          overshoot := need - tpm;
          tpm := 0;
        }
      }
      assert (tpm, overshoot, restored) == P.LocalDelta(b.balance.tpm, r.reserved.tpm, actualTokens);
      hide P.LocalDelta;
      leases := leases[BucketKey(r.key) := b.(balance := b.balance.(tpm := tpm), expiresAt := nowMs + cfg.leaseTtlMs)];
      var dec := Decision(true, NoLimit, Amounts(b.balance.rpm, tpm, 0, 0), Amounts(r.limits.rpm, r.limits.tpm, 0, 0),
                          0, id,
                          Amounts(0, overshoot, 0, 0));
      res := res[id := r.(status := Settled, actual := Amounts(0, actualTokens, 0, 0), last := dec,
                          expiresAt := nowMs + RESERVATION_TTL)];
      if restored {
        deny.Clear(r.key);
      }
      return Ok(dec);
    }

    method SettleLocalIO(nowMs: int, id: string, actualInput0: int,
                         actualOutput0: int) returns (reply: Result<Decision>)
      modifies this`leases, this`res, deny
      ensures (View(), reply) == P.SettleLocal(old(View()), nowMs, id, true, Amounts(0, 0, actualInput0, actualOutput0))
    {
      hide P.Swept, P.PurgedPool, P.Live;
      PurgeReservations(nowMs);
      if id !in res {
        return Err(ReservationNotFound);
      }
      var r := res[id];
      if !r.split {
        return Err(WrongSettleMode);
      }
      if r.status == Settled {
        return Ok(r.last);
      }
      if r.status == Refunded {
        return Err(ReservationRefunded);
      }
      var actualInput, actualOutput := Clamp(actualInput0), Clamp(actualOutput0);
      var found := GetLease(r.key, nowMs);
      var b := if found.Some? then found.value else P.Lease(ZERO, r.limits, nowMs + cfg.leaseTtlMs);

      var (itpm, overIn, restIn) := P.LocalDelta(b.balance.itpm, r.reserved.itpm, actualInput);
      var (otpm, overOut, restOut) := P.LocalDelta(b.balance.otpm, r.reserved.otpm, actualOutput);
      hide P.LocalDelta;
      leases := leases[BucketKey(r.key) := b.(balance := b.balance.(itpm := itpm, otpm := otpm),
                                              expiresAt := nowMs + cfg.leaseTtlMs)];
      var dec := Decision(true, NoLimit, Amounts(b.balance.rpm, otpm, itpm, otpm),
                          Amounts(r.limits.rpm, r.limits.otpm, r.limits.itpm, r.limits.otpm), 0, id,
                            Amounts(0, 0, overIn, overOut));
      res := res[id := r.(status := Settled, actual := Amounts(0, 0, actualInput, actualOutput), last := dec,
                          expiresAt := nowMs + RESERVATION_TTL)];
      if restIn || restOut {
        deny.Clear(r.key);
      }
      return Ok(dec);
    }

    method ApplyBorrowedDeficit(nowMs: int, id: string, gotTPM: int)
      modifies this`leases, this`res
      ensures View() == P.ApplyDeficit(old(View()), nowMs, id, false, Amounts(0, gotTPM, 0, 0))
    {
      if id !in res {
        return;
      }
      var r := res[id];
      var found := GetLease(r.key, nowMs);
      if found == None {
        return;
      }
      var b := found.value;
      var over := r.last.overshoot.tpm;
      var left := over;
      var tpm := b.balance.tpm + gotTPM;
      if over > 0 {
        if tpm >= over {
          tpm, left := tpm - over, 0;
        } else {
          tpm, left := 0, over - tpm;
        }
      }
      leases := leases[BucketKey(r.key) := b.(balance := b.balance.(tpm := tpm))];
      res := res[id := r.(last := r.last.(remaining := r.last.remaining.(rpm := b.balance.rpm, tpm := tpm),
                                          overshoot := r.last.overshoot.(tpm := left)))];
    }

    method ApplyBorrowedDeficitIO(nowMs: int, id: string, gotITPM: int, gotOTPM: int)
      modifies this`leases, this`res
      ensures View() == P.ApplyDeficit(old(View()), nowMs, id, true, Amounts(0, 0, gotITPM, gotOTPM))
    {
      if id !in res {
        return;
      }
      var r := res[id];
      var found := GetLease(r.key, nowMs);
      if found == None {
        return;
      }
      var b := found.value;
      var itpm, leftIn := b.balance.itpm + gotITPM, r.last.overshoot.itpm;
      var otpm, leftOut := b.balance.otpm + gotOTPM, r.last.overshoot.otpm;
      if leftIn > 0 {
        if itpm >= leftIn {
          itpm, leftIn := itpm - leftIn, 0;
        } else {
          itpm, leftIn := 0, leftIn - itpm;
        }
      }
      if leftOut > 0 {
        if otpm >= leftOut {
          otpm, leftOut := otpm - leftOut, 0;
        } else {
          otpm, leftOut := 0, leftOut - otpm;
        }
      }
      leases := leases[BucketKey(r.key) := b.(balance := b.balance.(itpm := itpm, otpm := otpm))];
      res := res[id := r.(last := r.last.(remaining := Amounts(b.balance.rpm, otpm, itpm, otpm),
                                          overshoot := r.last.overshoot.(itpm := leftIn, otpm := leftOut)))];
    }

    method RefundLocal(nowMs: int, id: string) returns (reply: Result<()>)
      modifies this`leases, this`res, deny
      ensures (View(), reply) == P.RefundLocal(old(View()), nowMs, id)
    {
      PurgeReservations(nowMs);
      if id !in res {
        return Err(ReservationNotFound);
      }
      var r := res[id];
      if r.status == Refunded {
        return Ok(());
      }
      if r.status == Settled {
        return Err(ReservationSettled);
      }
      var found := GetLease(r.key, nowMs);
      var b := if found.Some? then found.value else P.Lease(ZERO, r.limits, nowMs + cfg.leaseTtlMs);
      var balance := b.balance.(rpm := b.balance.rpm + r.reserved.rpm);
      if r.split {
        balance := balance.(itpm := balance.itpm + r.reserved.itpm);
        balance := balance.(otpm := balance.otpm + r.reserved.otpm);
      } else {
        balance := balance.(tpm := balance.tpm + r.reserved.tpm);
      }
      leases := leases[BucketKey(r.key) := b.(balance := balance, expiresAt := nowMs + cfg.leaseTtlMs)];
      res := res[id := r.(status := Refunded, expiresAt := nowMs + RESERVATION_TTL)];
      deny.Clear(r.key);
      return Ok(());
    }

    /** Hand out what the live leases hold and zero them. */
    method SnapshotLeases(nowMs: int) returns (out: map<string, P.Lease>)
      modifies this`leases
      ensures (View(), out) == P.Snapshot(old(View()), nowMs)
    {
      hide HandedOut, Zeroed, P.Snapshot;
      ghost var before := leases;
      var todo := leases.Keys;
      out := map[];
      NothingHandedOut(before, nowMs);
      while todo != {}
        invariant todo <= before.Keys
        invariant out == HandedOut(before, todo, nowMs) && leases == Zeroed(before, todo, nowMs)
        decreases |todo|
      {
        var k :| k in todo;
        OneHandedOut(before, todo, k, nowMs);
        var b := leases[k];
        todo := todo - {k};
        if !(nowMs < b.expiresAt) {
          continue;
        }
        if b.balance.rpm <= 0 && b.balance.tpm <= 0 && b.balance.itpm <= 0 && b.balance.otpm <= 0 {
          continue;
        }
        out := out[k := b];
        leases := leases[k := b.(balance := ZERO)];
      }
      AllHandedOut(old(View()), nowMs);
    }
  }

  // ----- how far SnapshotLeases has come

  /** The leases handed out when the keys of todo are still to come. */
  ghost function HandedOut(before: map<string, P.Lease>, todo: set<string>, nowMs: int): map<string, P.Lease> {
    map k | k in before && k !in todo && P.Returnable(before[k], nowMs) :: before[k]
  }

  /** What is left of the leases by then. */
  ghost function Zeroed(before: map<string, P.Lease>, todo: set<string>, nowMs: int): map<string, P.Lease> {
    map k | k in before ::
      if k !in todo && P.Returnable(before[k], nowMs) then before[k].(balance := ZERO) else before[k]
  }

  lemma NothingHandedOut(before: map<string, P.Lease>, nowMs: int)
    ensures HandedOut(before, before.Keys, nowMs) == map[] && Zeroed(before, before.Keys, nowMs) == before
  {
  }

  lemma OneHandedOut(before: map<string, P.Lease>, todo: set<string>, k: string, nowMs: int)
    requires k in todo && todo <= before.Keys
    ensures var out, left := HandedOut(before, todo, nowMs), Zeroed(before, todo, nowMs);
            var out', left' := HandedOut(before, todo - {k}, nowMs), Zeroed(before, todo - {k}, nowMs);
            k in left && left[k] == before[k] &&
            if P.Returnable(before[k], nowMs)
            then out' == out[k := before[k]] && left' == left[k := before[k].(balance := ZERO)]
            else out' == out && left' == left
  {
    hide P.Returnable;
  }

  lemma AllHandedOut(p: P.Pool, nowMs: int)
    ensures P.Snapshot(p, nowMs) == (p.(leases := Zeroed(p.leases, {}, nowMs)), HandedOut(p.leases, {}, nowMs))
  {
    hide P.Returnable;
    var (q, out) := P.Snapshot(p, nowMs);
    assert q.leases == Zeroed(p.leases, {}, nowMs);
    assert out == HandedOut(p.leases, {}, nowMs);
  }
}
