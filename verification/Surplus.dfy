/** The surplus in the token ledger: deficit grants that are in the lease already and are applied once more. */
module Surplus {
  import opened Quota
  import opened StoreSpec
  import opened StoreLedger
  import opened PoolSpec
  import opened PoolLedger
  import opened Fleet
  import opened FleetLedger

  /** Whether the event applies a deficit grant to the bucket: its thread has the grant in hand, its reservation
      is still known, its lease is live, and there is something granted on the axis. */
  predicate AppliesGrant(f: Fleet, e: Event, slot: Slot) {
    e.Step? && e.thread in f.threads &&
    var th := f.threads[e.thread];
    th.Applying? && IsUp(f, th.pod) &&
    var p := f.pods[th.pod].pool;
    th.id in p.res && BucketKey(p.res[th.id].key) == slot.key && Live(p, slot.key, e.input.clockMs) &&
    slot.axis in TokenAxes(th.split) && th.got.At(slot.axis) > 0
  }

  predicate NeverAppliesGrant(f: Fleet, run: seq<Event>, slot: Slot)
    decreases |run|
  {
    run == [] || (!AppliesGrant(f, run[0], slot) && NeverAppliesGrant(Next(f, run[0]), run[1..], slot))
  }

  lemma NoSurplusAtStore(th: Thread, books: Books, nowMs: int, input: Input, slot: Slot)
    ensures StoreCharge(th, books, nowMs, input, slot).surplus == 0
  {
    hide Flow, Forgotten, Holds;
  }

  /** An event moves a surplus exactly when it applies a grant, and never a negative one. */
  lemma EventSurplus(f: Fleet, e: Event, slot: Slot)
    requires SoundFleet(f)
    ensures var surplus := Charge(f, e, slot).surplus; surplus >= 0 && (surplus > 0 <==> AppliesGrant(f, e, slot))
  {
    hide Assets, Holds, StoreCharge, ExpiredHolds, OverwrittenHold, StaleBalance, TryDebit, LeaseOf, Sound, WellKeyed,
         WellFormed;
    if e.Step? && e.thread in f.threads {
      var th := f.threads[e.thread];
      if AtStore(th) {
        NoSurplusAtStore(th, f.store, f.nowMs, e.input, slot);
      } else if th.Applying? {
        assert SoundThread(th);
        ByAxisNonNegative(th.got, slot.axis);
      }
    }
  }

  lemma {:induction false} SurplusGrows(f: Fleet, run: seq<Event>, slot: Slot)
    requires SoundFleet(f)
    ensures var surplus := Total(f, run, slot).surplus;
            surplus >= 0 && (surplus > 0 <==> !NeverAppliesGrant(f, run, slot))
    decreases |run|
  {
    hide Next, SoundFleet, Assets, Charge, AppliesGrant;
    if run != [] {
      EventSurplus(f, run[0], slot);
      EventBalanced(f, run[0], slot);
      SurplusGrows(Next(f, run[0]), run[1..], slot);
    }
  }

  /** Without the surplus term the ledger closes over a run exactly when no event of it applies a deficit grant
      to a live lease; otherwise the fleet ends up with more than was borrowed. */
  lemma PlainLedgerIff(f: Fleet, run: seq<Event>, slot: Slot)
    requires SoundFleet(f)
    ensures var c := Total(f, run, slot);
            var had := Assets(f, slot) + c.borrowed;
            var has := Assets(After(f, run), slot) + c.returned + c.lapsed + c.gone + c.dropped;
            had <= has && (had == has <==> NeverAppliesGrant(f, run, slot))
  {
    hide SoundFleet, Assets, Total, After, NeverAppliesGrant;
    ExactLedger(f, run, slot);
    SurplusGrows(f, run, slot);
  }

  /** Applying a grant conserves what the pool holds exactly when the lease is gone or there is nothing to apply. */
  lemma ApplyConservesIff(p: Pool, nowMs: int, id: string, split: bool, got: Amounts, slot: Slot)
    requires Sound(p) && got.NonNegative()
    requires id in p.res && BucketKey(p.res[id].key) == slot.key && slot.axis in TokenAxes(split)
    ensures Stock(ApplyDeficit(p, nowMs, id, split, got), slot) + StaleBalance(p, slot.key, nowMs, slot) ==
            Stock(p, slot)
            <==> !Live(p, slot.key, nowMs) || got.At(slot.axis) == 0
  {
    ApplyStock(p, nowMs, id, split, got, slot);
  }
}
