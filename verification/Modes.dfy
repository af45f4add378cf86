/** Which budgets a call uses, on the limits as the caller gives them: input and output tokens when both limits are
    positive, whatever the classic limit says, and classic tokens when neither is. */
module Modes {
  import opened Quota
  import opened Bucket
  import opened BucketLaws
  import opened StoreSpec
  import opened StoreLaws
  import opened Waiting

  // ----- split limits

  /** A check under split limits asks for input and output tokens, and nothing about classic tokens matters. */
  lemma SplitCheck(b: Books, nowMs: int, key: Key, limits: Amounts, cost: Amounts, id: string, x: int, y: int)
    requires limits.itpm > 0 && limits.otpm > 0
    ensures var (b', reply) := Check(b, nowMs, key, limits, cost, id);
            Check(b, nowMs, key, limits.(tpm := x), cost.(tpm := y), id) == (b', reply) &&
            b'.tpm == b.tpm &&
            (cost.rpm > limits.rpm || cost.itpm > limits.itpm || cost.otpm > limits.otpm ==> !Admits(reply))
  {
    hide TryConsume, LoadBucket, Saved;
    SplitCheckIgnores(b, nowMs, key, limits, cost, id, x, y);
    SplitCheckKeeps(b, nowMs, key, limits, cost, id);
    forall a | Metered(true, a) && cost.At(a) > limits.At(a)
      ensures !Admits(Check(b, nowMs, key, limits, cost, id).1)
    {
      TooLargeIsNeverAdmitted(b, nowMs, key, limits, cost, id, a);
    }
    assert Metered(true, Rpm) && Metered(true, Itpm) && Metered(true, Otpm);
  }

  lemma SplitCheckIgnores(b: Books, nowMs: int, key: Key, limits: Amounts, cost: Amounts, id: string, x: int, y: int)
    requires limits.itpm > 0 && limits.otpm > 0
    ensures Check(b, nowMs, key, limits.(tpm := x), cost.(tpm := y), id) == Check(b, nowMs, key, limits, cost, id)
  {
    hide TryConsume, LoadBucket, Whole;
  }

  lemma SplitCheckKeeps(b: Books, nowMs: int, key: Key, limits: Amounts, cost: Amounts, id: string)
    requires limits.itpm > 0 && limits.otpm > 0
    ensures Check(b, nowMs, key, limits, cost, id).0.tpm == b.tpm
  {
    hide TryConsume, LoadBucket, Whole, Each, Consumed, ConsumeOn, FirstFailing, Shown, Masked;
  }

  /** A Borrow under split limits takes input and output tokens. */
  lemma SplitBorrow(b: Books, nowMs: int, key: Key, limits: Amounts, spec: BorrowSpec, x: int)
    requires limits.itpm > 0 && limits.otpm > 0
    ensures var (b', reply) := Borrow(b, nowMs, key, limits, spec);
            Borrow(b, nowMs, key, limits.(tpm := x), spec) == (b', reply) && b'.tpm == b.tpm &&
            (reply.Ok? ==> reply.value.got.tpm == 0)
    ensures var (b', reply) := Borrow(b, nowMs, key, limits, spec);
            reply.Ok? && reply.value.allowed ==>
              Avail(b, Rpm, BucketKey(key), limits, nowMs) >= spec.min.rpm &&
              Avail(b, Itpm, BucketKey(key), limits, nowMs) >= spec.min.itpm &&
              Avail(b, Otpm, BucketKey(key), limits, nowMs) >= spec.min.otpm
  {
    hide TryConsume, LoadBucket, Whole, WantGot;
  }

  /** A return under split limits goes to the input and output buckets. */
  lemma SplitReturn(b: Books, nowMs: int, key: Key, limits: Amounts, add: Amounts, x: int)
    requires limits.itpm > 0 && limits.otpm > 0
    ensures var (b', reply) := Return(b, nowMs, key, limits, add);
            var k := BucketKey(key);
            Return(b, nowMs, key, limits.(tpm := x), add) == (b', reply) && b'.tpm == b.tpm &&
            (key.subject != "" && (add.rpm > 0 || add.itpm > 0 || add.otpm > 0) ==>
               reply == Ok(()) &&
               b'.rpm == b.rpm[k := ToCell(Credit(LoadBucket(b.rpm, k, limits.rpm, nowMs), nowMs, add.rpm))] &&
               b'.itpm == b.itpm[k := ToCell(Credit(LoadBucket(b.itpm, k, limits.itpm, nowMs), nowMs, add.itpm))] &&
               b'.otpm == b.otpm[k := ToCell(Credit(LoadBucket(b.otpm, k, limits.otpm, nowMs), nowMs, add.otpm))])
  {
    hide Credit, LoadBucket;
  }

  // ----- classic limits

  /** A check under classic limits asks for tokens, and nothing about input and output matters. */
  lemma ClassicCheck(b: Books, nowMs: int, key: Key, limits: Amounts, cost: Amounts, id: string, x: int, y: int)
    requires limits.itpm <= 0 && limits.otpm <= 0
    ensures var (b', reply) := Check(b, nowMs, key, limits, cost, id);
            Check(b, nowMs, key, limits, cost.(itpm := x, otpm := y), id) == (b', reply) &&
            b'.itpm == b.itpm && b'.otpm == b.otpm &&
            (cost.rpm > limits.rpm || cost.tpm > limits.tpm ==> !Admits(reply))
  {
    hide TryConsume, LoadBucket, Saved;
    ClassicCheckIgnores(b, nowMs, key, limits, cost, id, x, y);
    ClassicCheckKeeps(b, nowMs, key, limits, cost, id);
    forall a | Metered(false, a) && cost.At(a) > limits.At(a)
      ensures !Admits(Check(b, nowMs, key, limits, cost, id).1)
    {
      TooLargeIsNeverAdmitted(b, nowMs, key, limits, cost, id, a);
    }
    assert Metered(false, Rpm) && Metered(false, Tpm);
  }

  lemma ClassicCheckIgnores(b: Books, nowMs: int, key: Key, limits: Amounts, cost: Amounts, id: string, x: int, y: int)
    requires limits.itpm <= 0 && limits.otpm <= 0
    ensures Check(b, nowMs, key, limits, cost.(itpm := x, otpm := y), id) == Check(b, nowMs, key, limits, cost, id)
  {
    hide TryConsume, LoadBucket, Whole;
  }

  lemma ClassicCheckKeeps(b: Books, nowMs: int, key: Key, limits: Amounts, cost: Amounts, id: string)
    requires limits.itpm <= 0 && limits.otpm <= 0
    ensures var b' := Check(b, nowMs, key, limits, cost, id).0; b'.itpm == b.itpm && b'.otpm == b.otpm
  {
    hide TryConsume, LoadBucket, Whole, Each, Consumed, ConsumeOn, FirstFailing, Shown, Masked;
  }

  lemma ClassicBorrow(b: Books, nowMs: int, key: Key, limits: Amounts, spec: BorrowSpec)
    requires limits.itpm <= 0 && limits.otpm <= 0
    ensures var (b', reply) := Borrow(b, nowMs, key, limits, spec);
            b'.itpm == b.itpm && b'.otpm == b.otpm &&
            (reply.Ok? ==> reply.value.got.itpm == 0 && reply.value.got.otpm == 0) &&
            (reply.Ok? && reply.value.allowed ==>
               Avail(b, Rpm, BucketKey(key), limits, nowMs) >= spec.min.rpm &&
               Avail(b, Tpm, BucketKey(key), limits, nowMs) >= spec.min.tpm)
  {
    hide TryConsume, LoadBucket, Whole, WantGot;
  }

  /** A return asks for both limits to be positive, too, before it goes to the input and output buckets. */
  lemma ClassicReturn(b: Books, nowMs: int, key: Key, limits: Amounts, add: Amounts)
    requires limits.itpm <= 0 || limits.otpm <= 0
    ensures var (b', reply) := Return(b, nowMs, key, limits, add);
            var k := BucketKey(key);
            b'.itpm == b.itpm && b'.otpm == b.otpm &&
            (key.subject != "" && (add.rpm > 0 || add.tpm > 0) ==>
               reply == Ok(()) &&
               b'.rpm == b.rpm[k := ToCell(Credit(LoadBucket(b.rpm, k, limits.rpm, nowMs), nowMs, add.rpm))] &&
               b'.tpm == b.tpm[k := ToCell(Credit(LoadBucket(b.tpm, k, limits.tpm, nowMs), nowMs, add.tpm))])
  {
    hide Credit, LoadBucket;
  }

  /** With nothing stored later than now, what a Borrow is allowed fits the limits of its mode. */
  lemma BorrowFitsLimits(b: Books, nowMs: int, key: Key, limits: Amounts, spec: BorrowSpec)
    requires 0 < nowMs && WrittenBy(b, nowMs)
    requires var reply := Borrow(b, nowMs, key, limits, spec).1; reply.Ok? && reply.value.allowed
    ensures limits.itpm > 0 && limits.otpm > 0 ==> spec.min.itpm <= limits.itpm && spec.min.otpm <= limits.otpm
    ensures limits.itpm <= 0 && limits.otpm <= 0 ==> spec.min.tpm <= Max(0, limits.tpm)
    ensures spec.min.rpm <= Max(0, limits.rpm)
  {
    hide Borrow, LoadBucket, Refill;
    if limits.itpm > 0 && limits.otpm > 0 {
      SplitBorrow(b, nowMs, key, limits, spec, 0);
    } else if limits.itpm <= 0 && limits.otpm <= 0 {
      ClassicBorrow(b, nowMs, key, limits, spec);
    } else {
      MalformedIff(b, nowMs, key, limits, ZERO, "", spec);
    }
    forall a: Axis
      ensures Avail(b, a, BucketKey(key), limits, nowMs) <= Max(0, limits.At(a))
    {
      LoadIsFresh(b, a, BucketKey(key), limits, nowMs, nowMs);
      FreshFits(b.Load(a, BucketKey(key), limits, nowMs), nowMs);
    }
    assert Avail(b, Rpm, BucketKey(key), limits, nowMs) <= Max(0, limits.At(Rpm));
    assert Avail(b, Tpm, BucketKey(key), limits, nowMs) <= Max(0, limits.At(Tpm));
    assert Avail(b, Itpm, BucketKey(key), limits, nowMs) <= Max(0, limits.At(Itpm));
    assert Avail(b, Otpm, BucketKey(key), limits, nowMs) <= Max(0, limits.At(Otpm));
  }

  lemma FreshFits(s: State, nowMs: int)
    requires Fresh(s, nowMs)
    ensures Whole(s.tokens) <= Max(0, s.capacity)
  {
  }

  // ----- malformed calls

  /** A check or Borrow is malformed if and only if exactly one of the input and output limits is positive or a name
      is missing; it then changes no bucket. */
  lemma MalformedIff(b: Books, nowMs: int, key: Key, limits: Amounts, cost: Amounts, id: string, spec: BorrowSpec)
    ensures var partial := (limits.itpm > 0 && limits.otpm <= 0) || (limits.itpm <= 0 && limits.otpm > 0);
            var (checked, verdict) := Check(b, nowMs, key, limits, cost, id);
            var (lent, grant) := Borrow(b, nowMs, key, limits, spec);
            (verdict.Err? <==> partial || key.subject == "" || id == "") &&
            (grant.Err? <==> partial || key.subject == "") &&
            (verdict.Err? ==> verdict == Err(InvalidArgument) && checked.(res := b.res) == b) &&
            (grant.Err? ==> grant == Err(InvalidArgument) && lent == b)
  {
    hide TryConsume, LoadBucket, Saved, Whole, Each, Shown, Masked;
  }

  /** Negative amounts count as nothing. */
  lemma NegativesAreNothing(b: Books, nowMs: int, key: Key, limits: Amounts, cost: Amounts, id: string)
    ensures Check(b, nowMs, key, limits, cost, id) ==
            Check(b, nowMs, key, limits,
                  Amounts(Max(0, cost.rpm), Max(0, cost.tpm), Max(0, cost.itpm), Max(0, cost.otpm)), id)
  {
    hide Check, Admits;
    SameClamped(b, nowMs, key, limits, cost,
                Amounts(Max(0, cost.rpm), Max(0, cost.tpm), Max(0, cost.itpm), Max(0, cost.otpm)), id);
  }

  lemma SameClamped(b: Books, nowMs: int, key: Key, limits: Amounts, cost1: Amounts, cost2: Amounts, id: string)
    requires cost1.Clamped() == cost2.Clamped()
    ensures Check(b, nowMs, key, limits, cost1, id) == Check(b, nowMs, key, limits, cost2, id)
  {
    hide TryConsume, LoadBucket, Saved, Whole, Each, Shown, Masked;
  }
}
