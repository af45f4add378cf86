/** What the store's replies tell the caller: the counts are what the buckets hold after the call, the limits are the
    caller's, and errors follow from the reservation's mode and status alone. */
module Replies {
  import opened Quota
  import opened Bucket
  import opened BucketLaws
  import opened StoreSpec
  import opened StoreLedger
  import opened StoreLaws
  import opened Waiting

  /** One count per axis of the mode.  Under split limits the classic token field repeats the output one, under
      classic limits the input and output fields are empty. */
  predicate Shows(shown: Amounts, limits: Amounts, value: Amounts) {
    shown.rpm == value.rpm &&
    if limits.itpm > 0 && limits.otpm > 0
    then shown.itpm == value.itpm && shown.otpm == value.otpm && shown.tpm == value.otpm
    else shown.tpm == value.tpm && shown.itpm == 0 && shown.otpm == 0
  }

  /** Whole tokens in the buckets of a key. */
  function LeftIn(b: Books, k: string, limits: Amounts, nowMs: int): Amounts {
    Amounts(Avail(b, Rpm, k, limits, nowMs), Avail(b, Tpm, k, limits, nowMs),
            Avail(b, Itpm, k, limits, nowMs), Avail(b, Otpm, k, limits, nowMs))
  }

  lemma ShownShows(limits: Amounts, value: Amounts, left: Amounts)
    requires forall a | Metered(Split(limits), a) :: value.At(a) == left.At(a)
    ensures Shows(Shown(Split(limits), value), limits, left)
  {
    assert Metered(Split(limits), Rpm);
    if limits.itpm > 0 && limits.otpm > 0 {
      assert Metered(Split(limits), Itpm) && Metered(Split(limits), Otpm);
    } else {
      assert Metered(Split(limits), Tpm);
    }
    assert value.At(Rpm) == left.At(Rpm);
    assert Metered(Split(limits), Tpm) ==> value.At(Tpm) == left.At(Tpm);
    assert Metered(Split(limits), Itpm) ==> value.At(Itpm) == left.At(Itpm);
    assert Metered(Split(limits), Otpm) ==> value.At(Otpm) == left.At(Otpm);
  }

  lemma LeftAt(b: Books, k: string, limits: Amounts, nowMs: int, a: Axis)
    ensures LeftIn(b, k, limits, nowMs).At(a) == Whole(b.Load(a, k, limits, nowMs).tokens)
  {
  }

  // ----- Check

  /** What a well-formed check replies, axis by axis. */
  lemma CheckDecides(b: Books, nowMs: int, key: Key, limits: Amounts, cost: Amounts, id: string)
    requires Check(b, nowMs, key, limits, cost, id).1.Ok?
    ensures var d := Check(b, nowMs, key, limits, cost, id).1.value;
            var k := BucketKey(key);
            var value := Each(a =>
              var out := TryConsume(b.Load(a, k, limits, nowMs), nowMs, Clamp(cost.At(a))).1;
              if d.allowed || d.limitType == On(a) then out.remaining else Whole(b.Load(a, k, limits, nowMs).tokens));
            d.remaining == Shown(Split(limits), value) && d.limit == Shown(Split(limits), limits) &&
              d.overshoot == ZERO &&
            (if d.allowed then d.limitType == NoLimit && d.retryMs == 0 && d.reservationId == id
             else d.limitType.On? && d.reservationId == "")
  {
    hide TryConsume, LoadBucket, Saved, Shown, Whole, Masked;
    assert forall a: Axis :: cost.Clamped().At(a) == Clamp(cost.At(a));
  }

  /** A check's counts are what its buckets hold once it is over, whether it was admitted or refused. */
  lemma CheckShows(b: Books, nowMs: int, key: Key, limits: Amounts, cost: Amounts, id: string)
    requires 0 < nowMs && WrittenBy(b, nowMs) && Check(b, nowMs, key, limits, cost, id).1.Ok?
    ensures var (b', reply) := Check(b, nowMs, key, limits, cost, id);
            var d := reply.value;
            Shows(d.remaining, limits, LeftIn(b', BucketKey(key), limits, nowMs)) && Shows(d.limit, limits, limits) &&
            d.overshoot == ZERO &&
            (if d.allowed then d.limitType == NoLimit && d.retryMs == 0 && d.reservationId == id
             else d.limitType.On? && d.reservationId == "")
  {
    hide TryConsume, LoadBucket, Check, Shown, Whole, LeftIn;
    var (b', reply) := Check(b, nowMs, key, limits, cost, id);
    var d, k := reply.value, BucketKey(key);
    CheckDecides(b, nowMs, key, limits, cost, id);
    ShownShows(limits, limits, limits);
    var value := Each(a =>
      var out := TryConsume(b.Load(a, k, limits, nowMs), nowMs, Clamp(cost.At(a))).1;
      if d.allowed || d.limitType == On(a) then out.remaining else Whole(b.Load(a, k, limits, nowMs).tokens));
    forall a | Metered(Split(limits), a)
      ensures value.At(a) == LeftIn(b', k, limits, nowMs).At(a)
    {
      LeftAt(b', k, limits, nowMs, a);
      CheckWrites(b, nowMs, key, limits, cost, id, Slot(a, k));
      LoadIsFresh(b, a, k, limits, nowMs, nowMs);
      var s := b.Load(a, k, limits, nowMs);
      ConsumeLeaves(s, nowMs, Clamp(cost.At(a)));
      ConsumeKeepsCapacity(s, nowMs, Clamp(cost.At(a)));
      if d.allowed {
        LoadStored(b', Slot(a, k), TryConsume(s, nowMs, Clamp(cost.At(a))).0, limits, nowMs);
      } else {
        SameLoad(b, b', Slot(a, k), limits, nowMs);
        if d.limitType == On(a) {
          RefusalNamesFirst(b, nowMs, key, limits, cost, id);
        }
      }
    }
    ShownShows(limits, value, LeftIn(b', k, limits, nowMs));
  }

  /** A consumption reports what it leaves, also when it takes nothing. */
  lemma ConsumeLeaves(s: State, nowMs: int, cost: nat)
    requires Fresh(s, nowMs)
    ensures var (t, out) := TryConsume(s, nowMs, cost);
            out.remaining == Whole(t.tokens) && (!out.allowed ==> t == s) && t.lastMs == nowMs && Refill(t, nowMs) == t
  {
  }

  // ----- Settle

  /** How every admitted request is recorded: its mode is that of its limits, and they are not negative. */
  predicate AsAdmitted(r: Reservation) {
    r.split == (r.limits.itpm > 0 && r.limits.otpm > 0) && r.limits.NonNegative()
  }

  lemma AdmissionIsRecorded(b: Books, nowMs: int, key: Key, limits: Amounts, cost: Amounts, id: string)
    requires Admits(Check(b, nowMs, key, limits, cost, id).1)
    ensures var b' := Check(b, nowMs, key, limits, cost, id).0; id in b'.res && AsAdmitted(b'.res[id])
  {
    hide Check, AxisAdmits;
    CheckRecords(b, nowMs, key, limits, cost, id);
    AdmitsIff(b, nowMs, key, limits, cost, id);
    forall a | Metered(Split(limits), a)
      ensures limits.At(a) >= 0
    {
      AdmittedFits(b, a, BucketKey(key), limits, nowMs, cost);
    }
    assert Metered(Split(limits), Rpm) && limits.At(Rpm) >= 0;
    assert Metered(Split(limits), Tpm) ==> limits.At(Tpm) >= 0;
  }

  lemma AdmittedFits(b: Books, a: Axis, k: string, limits: Amounts, nowMs: int, cost: Amounts)
    requires AxisAdmits(b, a, k, limits, nowMs, cost)
    ensures limits.At(a) >= 0
  {
    LoadKeepsCapacity(b.Shelf(a), k, limits.At(a), nowMs);
  }

  /** A settlement's counts are what the buckets hold afterwards under the reservation's own limits, the request
      bucket included; what it replies is what it puts on record. */
  lemma SettleShows(b: Books, nowMs: int, id: string, actual: Amounts)
    requires 0 < nowMs && WrittenBy(b, nowMs) && IsPending(b, nowMs, id)
    requires AsAdmitted(b.res[id])
    ensures var r := b.res[id];
            var (b', reply) := Settle(b, nowMs, id, r.split, actual);
            reply.Ok? && id in b'.res && b'.res[id].last == reply.value &&
            var d := reply.value;
            d.allowed && d.limitType == NoLimit && d.retryMs == 0 && d.reservationId == id &&
            Shows(d.remaining, r.limits, LeftIn(b', BucketKey(r.key), r.limits, nowMs)) &&
            Shows(d.limit, r.limits, r.limits)
  {
    hide SettleAxis, LoadBucket, Settle, Shown, Whole, LeftIn, Metered;
    var r := b.res[id];
    var (b', reply) := Settle(b, nowMs, id, r.split, actual);
    var k := BucketKey(r.key);
    SettleDecides(b, nowMs, id, actual);
    SettleRecords(b, nowMs, id, r.split, actual);
    ShownShows(r.limits, r.limits, r.limits);
    var value := SettledValue(b, nowMs, r, actual);
    forall a | Metered(Split(r.limits), a)
      ensures value.At(a) == LeftIn(b', k, r.limits, nowMs).At(a)
    {
      hide Split;
      LeftAt(b', k, r.limits, nowMs, a);
      SettleWrites(b, nowMs, id, r.split, actual, Slot(a, k));
      LoadIsFresh(b, a, k, r.limits, nowMs, nowMs);
      var s := b.Load(a, k, r.limits, nowMs);
      MeteredOnce(r.split, a);
      if a == Rpm {
        SameLoad(b, b', Slot(a, k), r.limits, nowMs);
      } else {
        SettleLeaves(s, nowMs, r.reserved.At(a), Clamp(actual.At(a)));
        LoadStored(b', Slot(a, k), SettleAxis(s, nowMs, r.reserved.At(a), Clamp(actual.At(a))).0, r.limits, nowMs);
      }
    }
    ShownShows(r.limits, value, LeftIn(b', k, r.limits, nowMs));
  }

  lemma MeteredOnce(split: bool, a: Axis)
    ensures Metered(split, a) <==> a == Rpm || a in TokenAxes(split)
  {
  }

  function SettledValue(b: Books, nowMs: int, r: Reservation, actual: Amounts): Amounts {
    Each(a =>
      var s := b.Load(a, BucketKey(r.key), r.limits, nowMs);
      Whole(if a in TokenAxes(r.split) then SettleAxis(s, nowMs, r.reserved.At(a), Clamp(actual.At(a))).0.tokens
            else s.tokens))
  }

  lemma SettleDecides(b: Books, nowMs: int, id: string, actual: Amounts)
    requires IsPending(b, nowMs, id)
    ensures var r := b.res[id];
            var reply := Settle(b, nowMs, id, r.split, actual).1;
            reply.Ok? &&
            var d := reply.value;
            d.allowed && d.limitType == NoLimit && d.retryMs == 0 && d.reservationId == id &&
            d.remaining == Shown(r.split, SettledValue(b, nowMs, r, actual)) && d.limit == Shown(r.split, r.limits)
  {
    hide SettleAxis, LoadBucket, Saved, Shown, Whole, Masked, SettleOn;
    var r := b.res[id];
    SpentAt(r.split, actual);
    var spent := Masked(r.split, actual.Clamped()).(rpm := 0);
    var value := Each(a =>
      Whole(if a in TokenAxes(r.split) then SettledAxis(Purged(b, nowMs), a, r, nowMs, spent).0.tokens
            else b.Load(a, BucketKey(r.key), r.limits, nowMs).tokens));
    assert value == SettledValue(b, nowMs, r, actual);
  }

  lemma SpentAt(split: bool, actual: Amounts)
    ensures forall a | a in TokenAxes(split) :: Masked(split, actual.Clamped()).(rpm := 0).At(a) == Clamp(actual.At(a))
  {
  }

  lemma SettleLeaves(s: State, nowMs: int, reserved: int, actual: int)
    requires Fresh(s, nowMs) && s.capacity >= 0
    ensures var t := SettleAxis(s, nowMs, reserved, actual).0;
            t.capacity == s.capacity && t.lastMs == nowMs && Whole(Refill(t, nowMs).tokens) == Whole(t.tokens)
  {
  }

  // ----- Borrow

  /** A Borrow's counts are what its buckets hold once it is over; a refusal grants nothing. */
  lemma BorrowShows(b: Books, nowMs: int, key: Key, limits: Amounts, spec: BorrowSpec)
    requires 0 < nowMs && WrittenBy(b, nowMs) && Borrow(b, nowMs, key, limits, spec).1.Ok?
    ensures var (b', reply) := Borrow(b, nowMs, key, limits, spec);
            var br := reply.value;
            Shows(br.remaining, limits, LeftIn(b', BucketKey(key), limits, nowMs)) && Shows(br.limit, limits, limits) &&
            (if br.allowed then br.limitType == NoLimit && br.retryMs == 0 else br.limitType.On? && br.got == ZERO)
  {
    hide TryConsume, LoadBucket, Borrow, Shown, Whole, LeftIn, WantGot;
    var (b', reply) := Borrow(b, nowMs, key, limits, spec);
    var k := BucketKey(key);
    BorrowDecides(b, nowMs, key, limits, spec);
    ShownShows(limits, limits, limits);
    var value := BorrowedValue(b, nowMs, k, limits, reply.value);
    forall a | Metered(Split(limits), a)
      ensures value.At(a) == LeftIn(b', k, limits, nowMs).At(a)
    {
      LeftAt(b', k, limits, nowMs, a);
      BorrowWrites(b, nowMs, key, limits, spec, Slot(a, k));
      LoadIsFresh(b, a, k, limits, nowMs, nowMs);
      var s := b.Load(a, k, limits, nowMs);
      if reply.value.allowed {
        var got := reply.value.got.At(a);
        ConsumeStaysFresh(s, nowMs, got);
        LoadStored(b', Slot(a, k), TryConsume(s, nowMs, got).0, limits, nowMs);
      } else {
        SameLoad(b, b', Slot(a, k), limits, nowMs);
      }
    }
    ShownShows(limits, value, LeftIn(b', k, limits, nowMs));
  }

  function BorrowedValue(b: Books, nowMs: int, k: string, limits: Amounts, br: BorrowResult): Amounts {
    Each(a =>
      var s := b.Load(a, k, limits, nowMs);
      Whole(if br.allowed then TryConsume(s, nowMs, br.got.At(a)).0.tokens else s.tokens))
  }

  lemma BorrowDecides(b: Books, nowMs: int, key: Key, limits: Amounts, spec: BorrowSpec)
    requires Borrow(b, nowMs, key, limits, spec).1.Ok?
    ensures var br := Borrow(b, nowMs, key, limits, spec).1.value;
            br.remaining == Shown(Split(limits), BorrowedValue(b, nowMs, BucketKey(key), limits, br)) &&
            br.limit == Shown(Split(limits), limits) &&
            (if br.allowed then br.limitType == NoLimit && br.retryMs == 0 else br.limitType.On? && br.got == ZERO)
  {
    hide TryConsume, LoadBucket, Saved, Shown, Whole, WantGot, Masked, ConsumeOn;
  }

  lemma ConsumeStaysFresh(s: State, nowMs: int, cost: int)
    requires Fresh(s, nowMs)
    ensures var t := TryConsume(s, nowMs, cost).0;
            t.capacity == s.capacity && t.lastMs == nowMs && Refill(t, nowMs) == t
  {
  }

  // ----- errors and lifetimes

  /** A settlement's answer follows from the reservation alone: not there, of the other mode, settled, refunded, or
      pending, in this order. */
  lemma SettleAnswers(b: Books, nowMs: int, id: string, split: bool, actual: Amounts)
    ensures var reply := Settle(b, nowMs, id, split, actual).1;
            if id !in b.res || nowMs > b.res[id].expiresAt then reply == Err(ReservationNotFound)
            else if b.res[id].split != split then reply == Err(WrongSettleMode)
            else if b.res[id].status == Settled then reply == Ok(b.res[id].last)
            else if b.res[id].status == Refunded then reply == Err(ReservationRefunded)
            else Admits(reply)
  {
    hide SettleAxis, LoadBucket, Saved, Shown, Each, Masked;
  }

  /** And so does a refund's: refunding again is fine, refunding what is settled is not. */
  lemma RefundAnswers(b: Books, nowMs: int, id: string)
    ensures var reply := Refund(b, nowMs, id).1;
            if id !in b.res || nowMs > b.res[id].expiresAt then reply == Err(ReservationNotFound)
            else if b.res[id].status == Settled then reply == Err(ReservationSettled)
            else reply == Ok(())
  {
    hide Credit, LoadBucket, Saved;
  }

  /** A reservation is there for 15 * 60 * 1000 milliseconds after it was made, and as long again after it was settled
      or refunded; not longer. */
  lemma ReservationsLast(b: Books, t1: int, key: Key, limits: Amounts, cost: Amounts, id: string, actual: Amounts,
                         t2: int, t3: int)
    requires Admits(Check(b, t1, key, limits, cost, id).1)
    ensures var b1 := Check(b, t1, key, limits, cost, id).0;
            var (b2, refund) := Refund(b1, t2, id);
            var (c2, settle) := Settle(b1, t2, id, Split(limits), actual);
            (refund == Err(ReservationNotFound) <==> t2 > t1 + 15 * 60 * 1000) &&
            (settle == Err(ReservationNotFound) <==> t2 > t1 + 15 * 60 * 1000) &&
            (t2 <= t1 + 15 * 60 * 1000 ==>
               (Refund(b2, t3, id).1 == Err(ReservationNotFound) <==> t3 > t2 + 15 * 60 * 1000) &&
               (Settle(c2, t3, id, Split(limits), actual).1 == Err(ReservationNotFound) <==> t3 > t2 + 15 * 60 * 1000))
  {
    hide Check, Settle, Refund, Masked;
    var b1 := Check(b, t1, key, limits, cost, id).0;
    var b2, c2 := Refund(b1, t2, id).0, Settle(b1, t2, id, Split(limits), actual).0;
    CheckRecords(b, t1, key, limits, cost, id);
    AdmittedIsPending(b, t1, key, limits, cost, id, t2);
    RefundAnswers(b1, t2, id);
    SettleAnswers(b1, t2, id, Split(limits), actual);
    RefundRecords(b1, t2, id);
    SettleRecords(b1, t2, id, Split(limits), actual);
    RefundAnswers(b2, t3, id);
    SettleAnswers(c2, t3, id, Split(limits), actual);
  }
}
