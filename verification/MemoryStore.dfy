/** The in-process store: four maps of buckets and one of reservations, updated in place.
    Every method is one critical section and is proved to do what module StoreSpec says. */
module MemoryStore {
  import opened Quota
  import opened Bucket
  import Spec = StoreSpec

  class Store {
    var rpm: map<string, Spec.Cell>
    var tpm: map<string, Spec.Cell>
    var itpm: map<string, Spec.Cell>
    var otpm: map<string, Spec.Cell>
    var res: map<string, Spec.Reservation>

    /** The whole state as one value. */
    ghost function View(): Spec.Books
      reads this
    {
      Spec.Shelves(rpm, tpm, itpm, otpm, res)
    }

    constructor ()
      ensures View() == Spec.EMPTY
    {
      rpm, tpm, itpm, otpm, res := map[], map[], map[], map[], map[];
    }

    method PurgeExpired(nowMs: int)
      modifies this`res
      ensures View() == Spec.Purged(old(View()), nowMs)
    {
      var ids := res.Keys;
      ghost var before := res;
      while ids != {}
        invariant ids <= before.Keys
        invariant res == map id | id in before && (id in ids || !(nowMs > before[id].expiresAt)) :: before[id]
        decreases |ids|
      {
        var id :| id in ids;
        if nowMs > res[id].expiresAt {
          res := map other | other in res && other != id :: res[other];
        }
        ids := ids - {id};
      }
      assert res == Spec.Unexpired(before, nowMs);
    }

    method Check(nowMs: int, key: Key, limits: Amounts, cost0: Amounts, id: string) returns (reply: Result<Decision>)
      modifies this
      ensures (View(), reply) == Spec.Check(old(View()), nowMs, key, limits, cost0, id)
    {
      if !ValidLimits(limits) {
        return Err(InvalidArgument);
      }
      PurgeExpired(nowMs);
      if key.subject == "" {
        return Err(InvalidArgument);
      }
      if id == "" {
        return Err(InvalidArgument);
      }
      var cost := cost0.Clamped();
      if Split(limits) {
        reply := CheckSplit(nowMs, key, limits, cost, id);
      } else {
        reply := CheckClassic(nowMs, key, limits, cost, id);
      }
    }

    method CheckClassic(nowMs: int, key: Key, limits: Amounts, cost: Amounts,
                        id: string) returns (reply: Result<Decision>)
      requires ValidLimits(limits) && !Split(limits) && key.subject != "" && id != ""
      requires cost == cost.Clamped()
      requires View() == Spec.Purged(View(), nowMs)
      modifies this
      ensures (View(), reply) == Spec.Check(old(View()), nowMs, key, limits, cost, id)
    {
      hide TryConsume, Refill, Spec.LoadBucket, Whole;
      var bk := BucketKey(key);
      var rpm1 := Spec.LoadBucket(rpm, bk, limits.rpm, nowMs);
      var tpm1 := Spec.LoadBucket(tpm, bk, limits.tpm, nowMs);
      var limit := Amounts(limits.rpm, limits.tpm, 0, 0);

      var (rpm2, rpmRes) := TryConsume(rpm1, nowMs, cost.rpm);
      if !rpmRes.allowed {
        var remaining := Amounts(rpmRes.remaining, Whole(tpm1.tokens), 0, 0);
        return Ok(Decision(false, On(Rpm), remaining, limit, rpmRes.retryMs, "", ZERO));
      }
      var (tpm2, tpmRes) := TryConsume(tpm1, nowMs, cost.tpm);
      if !tpmRes.allowed {
        var remaining := Amounts(Whole(rpm1.tokens), tpmRes.remaining, 0, 0);
        return Ok(Decision(false, On(Tpm), remaining, limit, tpmRes.retryMs, "", ZERO));
      }
      rpm := rpm[bk := Spec.ToCell(rpm2)];
      tpm := tpm[bk := Spec.ToCell(tpm2)];
      res := res[id := Spec.Reservation(key, false, Amounts(cost.rpm, cost.tpm, 0, 0), limit, ZERO, Pending,
                                         Spec.NO_DECISION, nowMs + RESERVATION_TTL)];
      var remaining := Amounts(rpmRes.remaining, tpmRes.remaining, 0, 0);
      return Ok(Decision(true, NoLimit, remaining, limit, 0, id, ZERO));
    }

    method CheckSplit(nowMs: int, key: Key, limits: Amounts, cost: Amounts,
                      id: string) returns (reply: Result<Decision>)
      requires ValidLimits(limits) && Split(limits) && key.subject != "" && id != ""
      requires cost == cost.Clamped()
      requires View() == Spec.Purged(View(), nowMs)
      modifies this
      ensures (View(), reply) == Spec.Check(old(View()), nowMs, key, limits, cost, id)
    {
      hide TryConsume, Refill, Spec.LoadBucket, Whole;
      var bk := BucketKey(key);
      var rpm1 := Spec.LoadBucket(rpm, bk, limits.rpm, nowMs);
      var itpm1 := Spec.LoadBucket(itpm, bk, limits.itpm, nowMs);
      var otpm1 := Spec.LoadBucket(otpm, bk, limits.otpm, nowMs);
      // the classic token field repeats the output one
      var limit := Amounts(limits.rpm, limits.otpm, limits.itpm, limits.otpm);

      var (rpm2, rpmRes) := TryConsume(rpm1, nowMs, cost.rpm);
      if !rpmRes.allowed {
        var out := Whole(otpm1.tokens);
        return Ok(Decision(false, On(Rpm), Amounts(rpmRes.remaining, out, Whole(itpm1.tokens), out), limit,
                           rpmRes.retryMs, "", ZERO));
      }
      var (itpm2, itpmRes) := TryConsume(itpm1, nowMs, cost.itpm);
      if !itpmRes.allowed {
        var out := Whole(otpm1.tokens);
        return Ok(Decision(false, On(Itpm), Amounts(Whole(rpm1.tokens), out, itpmRes.remaining, out), limit,
                           itpmRes.retryMs, "", ZERO));
      }
      var (otpm2, otpmRes) := TryConsume(otpm1, nowMs, cost.otpm);
      if !otpmRes.allowed {
        var out := otpmRes.remaining;
        return Ok(Decision(false, On(Otpm), Amounts(Whole(rpm1.tokens), out, Whole(itpm1.tokens), out), limit,
                           otpmRes.retryMs, "", ZERO));
      }
      rpm := rpm[bk := Spec.ToCell(rpm2)];
      itpm := itpm[bk := Spec.ToCell(itpm2)];
      otpm := otpm[bk := Spec.ToCell(otpm2)];
      res := res[id := Spec.Reservation(key, true, Amounts(cost.rpm, 0, cost.itpm, cost.otpm),
                                         Amounts(limits.rpm, 0, limits.itpm, limits.otpm), ZERO, Pending,
                                         Spec.NO_DECISION, nowMs + RESERVATION_TTL)];
      var remaining := Amounts(rpmRes.remaining, otpmRes.remaining, itpmRes.remaining, otpmRes.remaining);
      return Ok(Decision(true, NoLimit, remaining, limit, 0, id, ZERO));
    }

    method Settle(nowMs: int, id: string, actualTokens0: int) returns (reply: Result<Decision>)
      modifies this
      ensures (View(), reply) == Spec.Settle(old(View()), nowMs, id, false, Amounts(0, actualTokens0, 0, 0))
    {
      hide Credit, DebitFloor, Refill, Spec.LoadBucket, Whole;
      PurgeExpired(nowMs);
      if id !in res {
        return Err(ReservationNotFound);
      }
      var r := res[id];
      if r.split {
        return Err(WrongSettleMode);
      }
      if r.status == Settled {
        return Ok(r.last);
      }
      if r.status == Refunded {
        return Err(ReservationRefunded);
      }
      var actualTokens := Clamp(actualTokens0);
      var bk := BucketKey(r.key);
      var tpm1 := Spec.LoadBucket(tpm, bk, r.limits.tpm, nowMs);
      var rpm1 := Spec.LoadBucket(rpm, bk, r.limits.rpm, nowMs);

      ghost var settled := Spec.SettledAxis(View(), Tpm, r, nowMs, Amounts(0, actualTokens, 0, 0));
      var overshoot := 0;
      var delta := r.reserved.tpm - actualTokens;
      if delta > 0 {
        tpm1 := Credit(tpm1, nowMs, delta);
      } else if delta < 0 {
        var (t, _, over) := DebitFloor(tpm1, nowMs, -delta);
        tpm1, overshoot := t, over;
      }
      assert (tpm1, overshoot) == settled;
      tpm := tpm[bk := Spec.ToCell(tpm1)];

      var dec := Decision(true, NoLimit, Amounts(Whole(rpm1.tokens), Whole(tpm1.tokens), 0, 0),
                          Amounts(r.limits.rpm, r.limits.tpm, 0, 0), 0, id, Amounts(0, overshoot, 0, 0));
      res := res[id := r.(status := Settled, actual := Amounts(0, actualTokens, 0, 0), last := dec,
                          expiresAt := nowMs + RESERVATION_TTL)];
      return Ok(dec);
    }

    method SettleIO(nowMs: int, id: string, actualInput0: int, actualOutput0: int) returns (reply: Result<Decision>)
      modifies this
      ensures (View(), reply) == Spec.Settle(old(View()), nowMs, id, true, Amounts(0, 0, actualInput0, actualOutput0))
    {
      hide Spec.SettleAxis, Refill, Spec.LoadBucket, Whole;
      PurgeExpired(nowMs);
      if id !in res {
        return Err(ReservationNotFound);
      }
      var r := res[id];
      if !r.split {
        return Err(WrongSettleMode);
      }
      if r.status == Settled {
        return Ok(r.last);
      }
      if r.status == Refunded {
        return Err(ReservationRefunded);
      }
      var actualInput := Clamp(actualInput0);
      var actualOutput := Clamp(actualOutput0);
      var bk := BucketKey(r.key);
      var rpm1 := Spec.LoadBucket(rpm, bk, r.limits.rpm, nowMs);
      var itpm1 := Spec.LoadBucket(itpm, bk, r.limits.itpm, nowMs);
      var otpm1 := Spec.LoadBucket(otpm, bk, r.limits.otpm, nowMs);

      var (itpm2, overIn) := Spec.SettleAxis(itpm1, nowMs, r.reserved.itpm, actualInput);
      var (otpm2, overOut) := Spec.SettleAxis(otpm1, nowMs, r.reserved.otpm, actualOutput);
      itpm := itpm[bk := Spec.ToCell(itpm2)];
      otpm := otpm[bk := Spec.ToCell(otpm2)];

      var out := Whole(otpm2.tokens);
      var dec := Decision(true, NoLimit, Amounts(Whole(rpm1.tokens), out, Whole(itpm2.tokens), out),
                          Amounts(r.limits.rpm, r.limits.otpm, r.limits.itpm, r.limits.otpm), 0, id,
                          Amounts(0, 0, overIn, overOut));
      res := res[id := r.(status := Settled, actual := Amounts(0, 0, actualInput, actualOutput), last := dec,
                          expiresAt := nowMs + RESERVATION_TTL)];
      return Ok(dec);
    }

    method Refund(nowMs: int, id: string) returns (reply: Result<()>)
      modifies this
      ensures (View(), reply) == Spec.Refund(old(View()), nowMs, id)
    {
      hide Credit, Refill, Spec.LoadBucket;
      PurgeExpired(nowMs);
      if id !in res {
        return Err(ReservationNotFound);
      }
      var r := res[id];
      if r.status == Refunded {
        return Ok(());
      }
      if r.status == Settled {
        return Err(ReservationSettled);
      }
      var bk := BucketKey(r.key);
      var rpm1 := Spec.LoadBucket(rpm, bk, r.limits.rpm, nowMs);
      rpm := rpm[bk := Spec.ToCell(Credit(rpm1, nowMs, r.reserved.rpm))];
      if r.split {
        var itpm1 := Spec.LoadBucket(itpm, bk, r.limits.itpm, nowMs);
        var otpm1 := Spec.LoadBucket(otpm, bk, r.limits.otpm, nowMs);
        itpm := itpm[bk := Spec.ToCell(Credit(itpm1, nowMs, r.reserved.itpm))];
        otpm := otpm[bk := Spec.ToCell(Credit(otpm1, nowMs, r.reserved.otpm))];
      } else {
        var tpm1 := Spec.LoadBucket(tpm, bk, r.limits.tpm, nowMs);
        tpm := tpm[bk := Spec.ToCell(Credit(tpm1, nowMs, r.reserved.tpm))];
      }
      res := res[id := r.(status := Refunded, expiresAt := nowMs + RESERVATION_TTL)];
      return Ok(());
    }

    method Borrow(nowMs: int, key: Key, limits: Amounts, spec0: BorrowSpec) returns (reply: Result<BorrowResult>)
      modifies this
      ensures (View(), reply) == Spec.Borrow(old(View()), nowMs, key, limits, spec0)
    {
      if !ValidLimits(limits) {
        return Err(InvalidArgument);
      }
      if key.subject == "" {
        return Err(InvalidArgument);
      }
      var spec := BorrowSpec(spec0.min.Clamped(), spec0.chunk.Clamped());
      if Split(limits) {
        reply := BorrowSplit(nowMs, key, limits, spec);
      } else {
        reply := BorrowClassic(nowMs, key, limits, spec);
      }
    }

    method BorrowClassic(nowMs: int, key: Key, limits: Amounts, spec: BorrowSpec) returns (reply: Result<BorrowResult>)
      requires ValidLimits(limits) && !Split(limits) && key.subject != ""
      requires spec == BorrowSpec(spec.min.Clamped(), spec.chunk.Clamped())
      modifies this
      ensures (View(), reply) == Spec.Borrow(old(View()), nowMs, key, limits, spec)
    {
      hide TryConsume, Refill, Spec.LoadBucket, Whole;
      var bk := BucketKey(key);
      var rpm1 := Spec.LoadBucket(rpm, bk, limits.rpm, nowMs);
      var tpm1 := Spec.LoadBucket(tpm, bk, limits.tpm, nowMs);
      var availRPM := Whole(rpm1.tokens);
      var availTPM := Whole(tpm1.tokens);
      var limit := Amounts(limits.rpm, limits.tpm, 0, 0);
      var avail := Amounts(availRPM, availTPM, 0, 0);

      if availRPM < spec.min.rpm {
        var (_, out) := TryConsume(rpm1, nowMs, spec.min.rpm);
        return Ok(BorrowResult(false, On(Rpm), ZERO, avail, out.retryMs, limit));
      }
      if availTPM < spec.min.tpm {
        var (_, out) := TryConsume(tpm1, nowMs, spec.min.tpm);
        return Ok(BorrowResult(false, On(Tpm), ZERO, avail, out.retryMs, limit));
      }
      var gotRPM := Spec.WantGot(availRPM, spec.min.rpm, spec.chunk.rpm);
      var gotTPM := Spec.WantGot(availTPM, spec.min.tpm, spec.chunk.tpm);
      var (rpm2, _) := TryConsume(rpm1, nowMs, gotRPM);
      var (tpm2, _) := TryConsume(tpm1, nowMs, gotTPM);
      rpm := rpm[bk := Spec.ToCell(rpm2)];
      tpm := tpm[bk := Spec.ToCell(tpm2)];
      return Ok(BorrowResult(true, NoLimit, Amounts(gotRPM, gotTPM, 0, 0),
                             Amounts(Whole(rpm2.tokens), Whole(tpm2.tokens), 0, 0), 0, limit));
    }

    method BorrowSplit(nowMs: int, key: Key, limits: Amounts, spec: BorrowSpec) returns (reply: Result<BorrowResult>)
      requires ValidLimits(limits) && Split(limits) && key.subject != ""
      requires spec == BorrowSpec(spec.min.Clamped(), spec.chunk.Clamped())
      modifies this
      ensures (View(), reply) == Spec.Borrow(old(View()), nowMs, key, limits, spec)
    {
      hide TryConsume, Refill, Spec.LoadBucket, Whole;
      var bk := BucketKey(key);
      var rpm1 := Spec.LoadBucket(rpm, bk, limits.rpm, nowMs);
      var itpm1 := Spec.LoadBucket(itpm, bk, limits.itpm, nowMs);
      var otpm1 := Spec.LoadBucket(otpm, bk, limits.otpm, nowMs);
      var availRPM := Whole(rpm1.tokens);
      var availITPM := Whole(itpm1.tokens);
      var availOTPM := Whole(otpm1.tokens);
      var limit := Amounts(limits.rpm, limits.otpm, limits.itpm, limits.otpm);
      var avail := Amounts(availRPM, availOTPM, availITPM, availOTPM);

      if availRPM < spec.min.rpm {
        var (_, out) := TryConsume(rpm1, nowMs, spec.min.rpm);
        return Ok(BorrowResult(false, On(Rpm), ZERO, avail, out.retryMs, limit));
      }
      if availITPM < spec.min.itpm {
        var (_, out) := TryConsume(itpm1, nowMs, spec.min.itpm);
        return Ok(BorrowResult(false, On(Itpm), ZERO, avail, out.retryMs, limit));
      }
      if availOTPM < spec.min.otpm {
        var (_, out) := TryConsume(otpm1, nowMs, spec.min.otpm);
        return Ok(BorrowResult(false, On(Otpm), ZERO, avail, out.retryMs, limit));
      }
      var gotRPM := Spec.WantGot(availRPM, spec.min.rpm, spec.chunk.rpm);
      var gotITPM := Spec.WantGot(availITPM, spec.min.itpm, spec.chunk.itpm);
      var gotOTPM := Spec.WantGot(availOTPM, spec.min.otpm, spec.chunk.otpm);
      var (rpm2, _) := TryConsume(rpm1, nowMs, gotRPM);
      var (itpm2, _) := TryConsume(itpm1, nowMs, gotITPM);
      var (otpm2, _) := TryConsume(otpm1, nowMs, gotOTPM);
      rpm := rpm[bk := Spec.ToCell(rpm2)];
      itpm := itpm[bk := Spec.ToCell(itpm2)];
      otpm := otpm[bk := Spec.ToCell(otpm2)];
      var left := Whole(otpm2.tokens);
      return Ok(BorrowResult(true, NoLimit, Amounts(gotRPM, 0, gotITPM, gotOTPM),
                             Amounts(Whole(rpm2.tokens), left, Whole(itpm2.tokens), left), 0, limit));
    }

    method Return(nowMs: int, key: Key, limits: Amounts, rpmAdd: int, tpmAdd: int, itpmAdd: int, otpmAdd: int)
      returns (reply: Result<()>)
      modifies this
      ensures (View(), reply) == Spec.Return(old(View()), nowMs, key, limits, Amounts(rpmAdd, tpmAdd, itpmAdd, otpmAdd))
    {
      hide Credit, Refill, Spec.LoadBucket;
      if key.subject == "" {
        return Err(InvalidArgument);
      }
      if rpmAdd <= 0 && tpmAdd <= 0 && itpmAdd <= 0 && otpmAdd <= 0 {
        return Ok(());
      }
      var bk := BucketKey(key);
      if Split(limits) {
        var rpm1 := Spec.LoadBucket(rpm, bk, limits.rpm, nowMs);
        var itpm1 := Spec.LoadBucket(itpm, bk, limits.itpm, nowMs);
        var otpm1 := Spec.LoadBucket(otpm, bk, limits.otpm, nowMs);
        rpm := rpm[bk := Spec.ToCell(Credit(rpm1, nowMs, rpmAdd))];
        itpm := itpm[bk := Spec.ToCell(Credit(itpm1, nowMs, itpmAdd))];
        otpm := otpm[bk := Spec.ToCell(Credit(otpm1, nowMs, otpmAdd))];
        return Ok(());
      }
      var rpm1 := Spec.LoadBucket(rpm, bk, limits.rpm, nowMs);
      var tpm1 := Spec.LoadBucket(tpm, bk, limits.tpm, nowMs);
      rpm := rpm[bk := Spec.ToCell(Credit(rpm1, nowMs, rpmAdd))];
      tpm := tpm[bk := Spec.ToCell(Credit(tpm1, nowMs, tpmAdd))];
      return Ok(());
    }
  }
}
