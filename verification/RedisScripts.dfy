/** The Redis store: hashes updated by scripts, each atomic at the server.  A method per script, and a
    method per store call that picks the script; proved to do what module ScriptSpec says. */
module RedisScripts {
  import opened Quota
  import opened Bucket
  import opened StoreSpec
  import S = ScriptSpec

  class RedisStore {
    var rpm: map<string, Cell>
    var tpm: map<string, Cell>
    var itpm: map<string, Cell>
    var otpm: map<string, Cell>
    var res: map<string, S.ResHash>

    ghost function View(): S.Hashes
      reads this
    {
      Shelves(rpm, tpm, itpm, otpm, res)
    }

    constructor ()
      ensures View() == S.NO_HASHES
    {
      rpm, tpm, itpm, otpm, res := map[], map[], map[], map[], map[];
    }

    // ----- check

    method Check(nowMs: int, key: Key, limits: Amounts, cost: Amounts, id: string) returns (reply: Result<Decision>)
      modifies this
      ensures (View(), reply) == S.Check(old(View()), nowMs, key, limits, cost, id)
    {
      if !ValidLimits(limits) || key.subject == "" || id == "" {
        return Err(InvalidArgument);
      }
      if Split(limits) {
        reply := CheckIoScript(nowMs, key, limits, cost.rpm, cost.itpm, cost.otpm, id, cost.tpm);
      } else {
        reply := CheckScript(nowMs, key, limits, cost.rpm, cost.tpm, id, cost.itpm, cost.otpm);
      }
    }

    method CheckScript(nowMs: int, key: Key, limits: Amounts, costRpm0: int, costTpm0: int, id: string,
                       ghost otherIn: int, ghost otherOut: int)
      returns (reply: Result<Decision>)
      requires ValidLimits(limits) && !Split(limits) && key.subject != "" && id != ""
      modifies this
      ensures (View(), reply) ==
              S.Check(old(View()), nowMs, key, limits, Amounts(costRpm0, costTpm0, otherIn, otherOut), id)
    {
      hide S.Level, S.RetryMs, Whole;
      var k := BucketKey(key);
      var costRpm, costTpm := costRpm0, costTpm0;
      if costRpm < 0 { costRpm := 0; }
      if costTpm < 0 { costTpm := 0; }
      var rpmTokens := S.Level(rpm, k, limits.rpm, nowMs);
      var tpmTokens := S.Level(tpm, k, limits.tpm, nowMs);
      var limit := Amounts(limits.rpm, limits.tpm, 0, 0);
      if rpmTokens < costRpm * UNIT || costRpm > limits.rpm {
        return Ok(Decision(false, On(Rpm), Amounts(Whole(rpmTokens), Whole(tpmTokens), 0, 0), limit,
                           S.RetryMs(rpmTokens, limits.rpm, costRpm), "", ZERO));
      }
      if tpmTokens < costTpm * UNIT || costTpm > limits.tpm {
        return Ok(Decision(false, On(Tpm), Amounts(Whole(rpmTokens), Whole(tpmTokens), 0, 0), limit,
                           S.RetryMs(tpmTokens, limits.tpm, costTpm), "", ZERO));
      }
      rpmTokens := rpmTokens - costRpm * UNIT;
      tpmTokens := tpmTokens - costTpm * UNIT;
      rpm := rpm[k := Cell(rpmTokens, nowMs)];
      tpm := tpm[k := Cell(tpmTokens, nowMs)];
      res := res[id := S.ResHash(key, false, Amounts(costRpm, costTpm, 0, 0), limit, Pending, ZERO, ZERO,
                                 nowMs + RESERVATION_TTL)];
      return Ok(Decision(true, NoLimit, Amounts(Whole(rpmTokens), Whole(tpmTokens), 0, 0), limit, 0, id, ZERO));
    }

    method CheckIoScript(nowMs: int, key: Key, limits: Amounts, costRpm0: int, costItpm0: int, costOtpm0: int,
                         id: string,
                         ghost other: int)
      returns (reply: Result<Decision>)
      requires ValidLimits(limits) && Split(limits) && key.subject != "" && id != ""
      modifies this
      ensures (View(), reply) ==
              S.Check(old(View()), nowMs, key, limits, Amounts(costRpm0, other, costItpm0, costOtpm0), id)
    {
      hide S.Level, S.RetryMs, Whole, BucketKey;
      var k := BucketKey(key);
      var costRpm, costItpm, costOtpm := costRpm0, costItpm0, costOtpm0;
      if costRpm < 0 { costRpm := 0; }
      if costItpm < 0 { costItpm := 0; }
      if costOtpm < 0 { costOtpm := 0; }
      var rpmTokens := S.Level(rpm, k, limits.rpm, nowMs);
      var itpmTokens := S.Level(itpm, k, limits.itpm, nowMs);
      var otpmTokens := S.Level(otpm, k, limits.otpm, nowMs);
      var limit := Amounts(limits.rpm, limits.otpm, limits.itpm, limits.otpm);
      var remaining := Amounts(Whole(rpmTokens), Whole(otpmTokens), Whole(itpmTokens), Whole(otpmTokens));
      if rpmTokens < costRpm * UNIT || costRpm > limits.rpm {
        return Ok(Decision(false, On(Rpm), remaining, limit, S.RetryMs(rpmTokens, limits.rpm, costRpm), "", ZERO));
      }
      if itpmTokens < costItpm * UNIT || costItpm > limits.itpm {
        return Ok(Decision(false, On(Itpm), remaining, limit, S.RetryMs(itpmTokens, limits.itpm, costItpm), "", ZERO));
      }
      if otpmTokens < costOtpm * UNIT || costOtpm > limits.otpm {
        return Ok(Decision(false, On(Otpm), remaining, limit, S.RetryMs(otpmTokens, limits.otpm, costOtpm), "", ZERO));
      }
      rpmTokens := rpmTokens - costRpm * UNIT;
      itpmTokens := itpmTokens - costItpm * UNIT;
      otpmTokens := otpmTokens - costOtpm * UNIT;
      rpm := rpm[k := Cell(rpmTokens, nowMs)];
      itpm := itpm[k := Cell(itpmTokens, nowMs)];
      otpm := otpm[k := Cell(otpmTokens, nowMs)];
      res := res[id := S.ResHash(key, true, Amounts(costRpm, 0, costItpm, costOtpm),
                                 Amounts(limits.rpm, 0, limits.itpm, limits.otpm), Pending, ZERO, ZERO,
                                   nowMs + RESERVATION_TTL)];
      return Ok(Decision(true, NoLimit,
                         Amounts(Whole(rpmTokens), Whole(otpmTokens), Whole(itpmTokens), Whole(otpmTokens)),
                         limit, 0, id, ZERO));
    }

    // ----- settle

    method Settle(nowMs: int, id: string, actual0: int) returns (reply: Result<Decision>)
      modifies this
      ensures (View(), reply) == S.Settle(old(View()), nowMs, id, false, Amounts(0, actual0, 0, 0))
    {
      hide S.Level, S.ApplyDelta, Whole;
      if id !in res || nowMs > res[id].expiresAt {
        return Err(ReservationNotFound);
      }
      var r := res[id];
      if r.split {
        return Err(WrongSettleMode);
      }
      var limit := Amounts(r.limits.rpm, r.limits.tpm, 0, 0);
      if r.status == Settled {
        return Ok(Decision(true, NoLimit, r.snapRemaining, limit, 0, id, r.snapOvershoot));
      }
      if r.status == Refunded {
        return Err(ReservationRefunded);
      }
      var actual := actual0;
      if actual < 0 { actual := 0; }
      var k := BucketKey(r.key);
      var rpmTokens := S.Level(rpm, k, r.limits.rpm, nowMs);
      var tpmTokens := S.Level(tpm, k, r.limits.tpm, nowMs);
      var overshoot;
      tpmTokens, overshoot := SettleLevel(tpmTokens, r.limits.tpm, r.reserved.tpm, actual);
      tpm := tpm[k := Cell(tpmTokens, nowMs)];
      rpm := rpm[k := Cell(rpmTokens, nowMs)];
      var remaining := Amounts(Whole(rpmTokens), Whole(tpmTokens), 0, 0);
      var over := Amounts(0, overshoot, 0, 0);
      res := res[id := r.(status := Settled, snapRemaining := remaining, snapOvershoot := over,
                          expiresAt := nowMs + RESERVATION_TTL)];
      return Ok(Decision(true, NoLimit, remaining, limit, 0, id, over));
    }

    /** The delta step of the settle scripts. */
    method SettleLevel(tokens0: int, capacity: int, reserved: int, actual: int) returns (tokens: int, overshoot: int)
      ensures (tokens, overshoot) == S.ApplyDelta(tokens0, capacity, reserved, actual)
    {
      tokens, overshoot := tokens0, 0;
      var delta := reserved - actual;
      if delta > 0 {
        tokens := Min(capacity * UNIT, tokens + delta * UNIT);
      } else if delta < 0 {
        var need := -delta;
        var avail := Whole(tokens);
        if avail >= need {
          tokens := tokens - need * UNIT;
        } else {
          overshoot := need - avail;
          tokens := tokens - avail * UNIT;
          if tokens < 0 { tokens := 0; }
        }
      }
    }

    method SettleIO(nowMs: int, id: string, actualIn0: int, actualOut0: int) returns (reply: Result<Decision>)
      modifies this
      ensures (View(), reply) == S.Settle(old(View()), nowMs, id, true, Amounts(0, 0, actualIn0, actualOut0))
    {
      hide S.Level, S.ApplyDelta, Whole;
      if id !in res || nowMs > res[id].expiresAt {
        return Err(ReservationNotFound);
      }
      var r := res[id];
      if !r.split {
        return Err(WrongSettleMode);
      }
      var limit := Amounts(r.limits.rpm, r.limits.otpm, r.limits.itpm, r.limits.otpm);
      if r.status == Settled {
        return Ok(Decision(true, NoLimit, r.snapRemaining, limit, 0, id, r.snapOvershoot));
      }
      if r.status == Refunded {
        return Err(ReservationRefunded);
      }
      var actualIn, actualOut := actualIn0, actualOut0;
      if actualIn < 0 { actualIn := 0; }
      if actualOut < 0 { actualOut := 0; }
      var k := BucketKey(r.key);
      var rpmTokens := S.Level(rpm, k, r.limits.rpm, nowMs);
      var itpmTokens := S.Level(itpm, k, r.limits.itpm, nowMs);
      var otpmTokens := S.Level(otpm, k, r.limits.otpm, nowMs);
      var overIn, overOut;
      itpmTokens, overIn := SettleLevel(itpmTokens, r.limits.itpm, r.reserved.itpm, actualIn);
      otpmTokens, overOut := SettleLevel(otpmTokens, r.limits.otpm, r.reserved.otpm, actualOut);
      rpm := rpm[k := Cell(rpmTokens, nowMs)];
      itpm := itpm[k := Cell(itpmTokens, nowMs)];
      otpm := otpm[k := Cell(otpmTokens, nowMs)];
      var remaining := Amounts(Whole(rpmTokens), Whole(otpmTokens), Whole(itpmTokens), Whole(otpmTokens));
      var over := Amounts(0, 0, overIn, overOut);
      res := res[id := r.(status := Settled, snapRemaining := remaining, snapOvershoot := over,
                          expiresAt := nowMs + RESERVATION_TTL)];
      return Ok(Decision(true, NoLimit, remaining, limit, 0, id, over));
    }

    // ----- refund

    method Refund(nowMs: int, id: string) returns (reply: Result<()>)
      modifies this
      ensures (View(), reply) == S.Refund(old(View()), nowMs, id)
    {
      hide S.Level;
      if id !in res || nowMs > res[id].expiresAt {
        return Err(ReservationNotFound);
      }
      var r := res[id];
      if r.status == Refunded {
        return Ok(());
      }
      if r.status == Settled {
        return Err(ReservationSettled);
      }
      var k := BucketKey(r.key);
      AddTo(nowMs, k, r.split, r.limits, r.reserved);
      res := res[id := r.(status := Refunded, expiresAt := nowMs + RESERVATION_TTL)];
      return Ok(());
    }

    /** The capped additions of the refund and return scripts. */
    method AddTo(nowMs: int, k: string, split: bool, limits: Amounts, add: Amounts)
      modifies this`rpm, this`tpm, this`itpm, this`otpm
      ensures View() == Saved(old(View()), ModeAxes(split), k, S.AddOn(old(View()), k, limits, nowMs, add))
    {
      hide S.Level, Min;
      var rpmTokens := S.Level(rpm, k, limits.rpm, nowMs);
      if split {
        var itpmTokens := S.Level(itpm, k, limits.itpm, nowMs);
        var otpmTokens := S.Level(otpm, k, limits.otpm, nowMs);
        rpm := rpm[k := Cell(Min(limits.rpm * UNIT, rpmTokens + add.rpm * UNIT), nowMs)];
        itpm := itpm[k := Cell(Min(limits.itpm * UNIT, itpmTokens + add.itpm * UNIT), nowMs)];
        otpm := otpm[k := Cell(Min(limits.otpm * UNIT, otpmTokens + add.otpm * UNIT), nowMs)];
      } else {
        var tpmTokens := S.Level(tpm, k, limits.tpm, nowMs);
        rpm := rpm[k := Cell(Min(limits.rpm * UNIT, rpmTokens + add.rpm * UNIT), nowMs)];
        tpm := tpm[k := Cell(Min(limits.tpm * UNIT, tpmTokens + add.tpm * UNIT), nowMs)];
      }
    }

    // ----- borrow and return

    method Borrow(nowMs: int, key: Key, limits: Amounts, spec0: BorrowSpec) returns (reply: Result<BorrowResult>)
      modifies this
      ensures (View(), reply) == S.Borrow(old(View()), nowMs, key, limits, spec0)
    {
      if !ValidLimits(limits) || key.subject == "" {
        return Err(InvalidArgument);
      }
      if Split(limits) {
        reply := BorrowIoScript(nowMs, key, limits, spec0);
      } else {
        reply := BorrowScript(nowMs, key, limits, spec0);
      }
    }

    method BorrowScript(nowMs: int, key: Key, limits: Amounts, spec0: BorrowSpec) returns (reply: Result<BorrowResult>)
      requires ValidLimits(limits) && !Split(limits) && key.subject != ""
      modifies this
      ensures (View(), reply) == S.Borrow(old(View()), nowMs, key, limits, spec0)
    {
      hide S.Level, S.RetryMs, Whole, Clamp, BucketKey;
      var k := BucketKey(key);
      var minRpm, minTpm := Clamp(spec0.min.rpm), Clamp(spec0.min.tpm);
      var chunkRpm, chunkTpm := Clamp(spec0.chunk.rpm), Clamp(spec0.chunk.tpm);
      var rpmTokens := S.Level(rpm, k, limits.rpm, nowMs);
      var tpmTokens := S.Level(tpm, k, limits.tpm, nowMs);
      var availRpm, availTpm := Whole(rpmTokens), Whole(tpmTokens);
      var limit := Amounts(limits.rpm, limits.tpm, 0, 0);
      if availRpm < minRpm {
        return Ok(BorrowResult(false, On(Rpm), ZERO, Amounts(availRpm, availTpm, 0, 0),
                               S.RetryMs(rpmTokens, limits.rpm, minRpm), limit));
      }
      if availTpm < minTpm {
        return Ok(BorrowResult(false, On(Tpm), ZERO, Amounts(availRpm, availTpm, 0, 0),
                               S.RetryMs(tpmTokens, limits.tpm, minTpm), limit));
      }
      var gotRpm := Min(availRpm, Max(minRpm, chunkRpm));
      var gotTpm := Min(availTpm, Max(minTpm, chunkTpm));
      assert gotRpm == WantGot(availRpm, minRpm, chunkRpm) && gotTpm == WantGot(availTpm, minTpm, chunkTpm);
      hide WantGot, Min, Max;
      rpmTokens := rpmTokens - gotRpm * UNIT;
      tpmTokens := tpmTokens - gotTpm * UNIT;
      rpm := rpm[k := Cell(rpmTokens, nowMs)];
      tpm := tpm[k := Cell(tpmTokens, nowMs)];
      return Ok(BorrowResult(true, NoLimit, Amounts(gotRpm, gotTpm, 0, 0),
                             Amounts(Whole(rpmTokens), Whole(tpmTokens), 0, 0), 0, limit));
    }

    method BorrowIoScript(nowMs: int, key: Key, limits: Amounts,
                          spec0: BorrowSpec) returns (reply: Result<BorrowResult>)
      requires ValidLimits(limits) && Split(limits) && key.subject != ""
      modifies this
      ensures (View(), reply) == S.Borrow(old(View()), nowMs, key, limits, spec0)
    {
      hide S.Level, S.RetryMs, Whole, WantGot, Clamp, BucketKey;
      var k := BucketKey(key);
      var minRpm, minItpm, minOtpm := Clamp(spec0.min.rpm), Clamp(spec0.min.itpm), Clamp(spec0.min.otpm);
      var chunkRpm, chunkItpm, chunkOtpm := Clamp(spec0.chunk.rpm), Clamp(spec0.chunk.itpm), Clamp(spec0.chunk.otpm);
      var rpmTokens := S.Level(rpm, k, limits.rpm, nowMs);
      var itpmTokens := S.Level(itpm, k, limits.itpm, nowMs);
      var otpmTokens := S.Level(otpm, k, limits.otpm, nowMs);
      var availRpm, availItpm, availOtpm := Whole(rpmTokens), Whole(itpmTokens), Whole(otpmTokens);
      var limit := Amounts(limits.rpm, limits.otpm, limits.itpm, limits.otpm);
      var avail := Amounts(availRpm, availOtpm, availItpm, availOtpm);
      if availRpm < minRpm {
        return Ok(BorrowResult(false, On(Rpm), ZERO, avail, S.RetryMs(rpmTokens, limits.rpm, minRpm), limit));
      }
      if availItpm < minItpm {
        return Ok(BorrowResult(false, On(Itpm), ZERO, avail, S.RetryMs(itpmTokens, limits.itpm, minItpm), limit));
      }
      if availOtpm < minOtpm {
        return Ok(BorrowResult(false, On(Otpm), ZERO, avail, S.RetryMs(otpmTokens, limits.otpm, minOtpm), limit));
      }
      var gotRpm := WantGot(availRpm, minRpm, chunkRpm);
      var gotItpm := WantGot(availItpm, minItpm, chunkItpm);
      var gotOtpm := WantGot(availOtpm, minOtpm, chunkOtpm);
      rpmTokens := rpmTokens - gotRpm * UNIT;
      itpmTokens := itpmTokens - gotItpm * UNIT;
      otpmTokens := otpmTokens - gotOtpm * UNIT;
      rpm := rpm[k := Cell(rpmTokens, nowMs)];
      itpm := itpm[k := Cell(itpmTokens, nowMs)];
      otpm := otpm[k := Cell(otpmTokens, nowMs)];
      var left := Whole(otpmTokens);
      return Ok(BorrowResult(true, NoLimit, Amounts(gotRpm, 0, gotItpm, gotOtpm),
                             Amounts(Whole(rpmTokens), left, Whole(itpmTokens), left), 0, limit));
    }

    method Return(nowMs: int, key: Key, limits: Amounts, rpmAdd: int, tpmAdd: int, itpmAdd: int, otpmAdd: int)
      returns (reply: Result<()>)
      modifies this
      ensures (View(), reply) == S.Return(old(View()), nowMs, key, limits, Amounts(rpmAdd, tpmAdd, itpmAdd, otpmAdd))
    {
      if key.subject == "" {
        return Err(InvalidArgument);
      }
      if rpmAdd <= 0 && tpmAdd <= 0 && itpmAdd <= 0 && otpmAdd <= 0 {
        return Ok(());
      }
      if Split(limits) && Clamp(rpmAdd) == 0 && Clamp(itpmAdd) == 0 && Clamp(otpmAdd) == 0 {
        return Ok(());
      }
      AddTo(nowMs, BucketKey(key), Split(limits), limits,
            Amounts(Clamp(rpmAdd), Clamp(tpmAdd), Clamp(itpmAdd), Clamp(otpmAdd)));
      return Ok(());
    }
  }
}
