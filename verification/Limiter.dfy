/** The limiter: a store, perhaps a pool in front of it, and a fail mode.  Every method is proved to do what
    module LimiterSpec says when nothing interferes with it. */
module Limiter {
  import opened Quota
  import S = StoreSpec
  import P = PoolSpec
  import Spec = LimiterSpec
  import MemoryStore
  import LeasePool

  class Limiter {
    const store: MemoryStore.Store
    const pool: LeasePool.Pool?
    const failOpen: bool

    ghost const Repr: set<object>

    ghost predicate Valid() {
      Repr == {store} + (if pool == null then {} else {pool, pool.deny})
    }

    ghost function PoolView(): Option<P.Pool>
      requires Valid()
      reads Repr
    {
      if pool == null then None else Some(pool.View())
    }

    constructor (s: MemoryStore.Store, lease: Option<P.Config>, open: bool)
      ensures Valid() && store == s && failOpen == open
      ensures PoolView() == if lease.Some? then Some(P.EmptyPool(lease.value)) else None
      ensures fresh(Repr - {s})
    {
      store, failOpen := s, open;
      if lease.Some? {
        var p := new LeasePool.Pool(lease.value);
        pool := p;
        Repr := {s, p, p.deny};
      } else {
        pool := null;
        Repr := {s};
      }
    }

    // ----- store calls over a connection that may fail

    method StoreCheck(env: Spec.Env, key: Key, limits: Amounts, cost: Amounts,
                      id: string) returns (reply: Result<Decision>)
      modifies store
      ensures (store.View(), reply) ==
              S.Sent(env.fault, old(store.View()), S.Check(old(store.View()), env.storeMs, key, limits, cost, id))
    {
      if env.fault.NotSent? {
        return Err(Unavailable);
      }
      reply := store.Check(env.storeMs, key, limits, cost, id);
      if env.fault.ReplyLost? {
        reply := Err(Unavailable);
      }
    }

    method StoreBorrow(env: Spec.Env, key: Key, limits: Amounts, spec: BorrowSpec) returns (reply: Result<BorrowResult>)
      modifies store
      ensures (store.View(), reply) ==
              S.Sent(env.fault, old(store.View()), S.Borrow(old(store.View()), env.storeMs, key, limits, spec))
    {
      if env.fault.NotSent? {
        return Err(Unavailable);
      }
      reply := store.Borrow(env.storeMs, key, limits, spec);
      if env.fault.ReplyLost? {
        reply := Err(Unavailable);
      }
    }

    method StoreSettle(env: Spec.Env, id: string, actualTokens: int) returns (reply: Result<Decision>)
      modifies store
      ensures (store.View(), reply) ==
              S.Sent(env.fault, old(store.View()),
                     S.Settle(old(store.View()), env.storeMs, id, false, Amounts(0, actualTokens, 0, 0)))
    {
      if env.fault.NotSent? {
        return Err(Unavailable);
      }
      reply := store.Settle(env.storeMs, id, actualTokens);
      if env.fault.ReplyLost? {
        reply := Err(Unavailable);
      }
    }

    method StoreSettleIO(env: Spec.Env, id: string, actualInput: int,
                         actualOutput: int) returns (reply: Result<Decision>)
      modifies store
      ensures (store.View(), reply) ==
              S.Sent(env.fault, old(store.View()),
                     S.Settle(old(store.View()), env.storeMs, id, true, Amounts(0, 0, actualInput, actualOutput)))
    {
      if env.fault.NotSent? {
        return Err(Unavailable);
      }
      reply := store.SettleIO(env.storeMs, id, actualInput, actualOutput);
      if env.fault.ReplyLost? {
        reply := Err(Unavailable);
      }
    }

    method StoreRefund(env: Spec.Env, id: string) returns (reply: Result<()>)
      modifies store
      ensures (store.View(), reply) ==
              S.Sent(env.fault, old(store.View()), S.Refund(old(store.View()), env.storeMs, id))
    {
      if env.fault.NotSent? {
        return Err(Unavailable);
      }
      reply := store.Refund(env.storeMs, id);
      if env.fault.ReplyLost? {
        reply := Err(Unavailable);
      }
    }

    // ----- Check

    method Check(env: Spec.Env, key: Key, limits: Amounts, cost: Amounts) returns (reply: Result<Decision>)
      requires Valid()
      modifies Repr
      ensures (PoolView(), store.View(), reply) ==
              Spec.CheckAny(old(PoolView()), old(store.View()), env, failOpen, key, limits, cost)
    {
      if !ValidLimits(limits) {
        return Err(InvalidArgument);
      }
      var decision: Decision;
      if pool != null {
        decision := CheckFast(env, key, limits, cost);
      } else {
        decision := CheckDirect(env, key, limits, cost);
      }
      return Ok(decision);
    }

    method CheckDirect(env: Spec.Env, key: Key, limits: Amounts, cost: Amounts) returns (decision: Decision)
      modifies store
      ensures (store.View(), decision) == Spec.CheckDirect(old(store.View()), env, failOpen, key, limits, cost)
    {
      var id := env.ids(0);
      if id.None? {
        return Spec.OnStoreError(failOpen, limits);
      }
      var reply := StoreCheck(env, key, limits, cost, id.value);
      if reply.Err? {
        return Spec.OnStoreError(failOpen, limits);
      }
      return reply.value;
    }

    method CheckFast(env: Spec.Env, key: Key, limits: Amounts, cost0: Amounts) returns (decision: Decision)
      requires Valid() && pool != null
      modifies Repr
      ensures (pool.View(), store.View(), decision) ==
              Spec.CheckFast(old(pool.View()), old(store.View()), env, failOpen, key, limits, cost0)
    {
      var cost := cost0;
      if cost.rpm < 0 {
        cost := cost.(rpm := 0);
      }
      if cost.tpm < 0 {
        cost := cost.(tpm := 0);
      }
      if cost.itpm < 0 {
        cost := cost.(itpm := 0);
      }
      if cost.otpm < 0 {
        cost := cost.(otpm := 0);
      }
      assert cost == cost0.Clamped();
      hide P.DenyGet, P.TryDebit, Spec.CheckByBorrowing, Spec.OnStoreErrorFast, Shown;
      var hit := pool.deny.Get(env.clock(0), key);
      if hit.Some? {
        return Spec.Denial(limits, hit.value.0, hit.value.1);
      }
      var id := env.ids(0);
      if id.None? {
        decision := OnStoreErrorFast(env, 1, key, limits, cost);
        return;
      }
      var debited := pool.TryDebit(env.clock(1), key, limits, cost, id.value);
      if debited.Some? {
        return debited.value;
      }
      decision := CheckByBorrowing(env, key, limits, cost, id.value);
    }

    /** The second half of CheckFast. */
    method CheckByBorrowing(env: Spec.Env, key: Key, limits: Amounts, cost: Amounts,
                            id: string) returns (decision: Decision)
      requires Valid() && pool != null
      modifies Repr
      ensures (pool.View(), store.View(), decision) ==
              Spec.CheckByBorrowing(old(pool.View()), old(store.View()), env, failOpen, key, limits, cost, id)
    {
      hide S.Borrow, P.TryDebit, P.CreditLease;
      var reply := StoreBorrow(env, key, limits, BorrowSpec(cost, pool.cfg.chunk));
      if reply.Err? {
        decision := OnStoreErrorFast(env, 3, key, limits, cost);
        return;
      }
      var br := reply.value;
      if !br.allowed {
        pool.deny.Set(env.clock(3), key, br.limitType, br.retryMs);
        return Spec.BorrowDenial(limits, br);
      }
      pool.CreditLease(env.clock(3), key, limits, br.got.rpm, br.got.tpm, br.got.itpm, br.got.otpm);
      var debited := pool.TryDebit(env.clock(4), key, limits, cost, id);
      if debited.None? {
        pool.deny.Set(env.clock(5), key, Backend, 1000);
        return Spec.Denial(limits, Backend, 1000);
      }
      return debited.value;
    }

    method OnStoreErrorFast(env: Spec.Env, i: nat, key: Key, limits: Amounts,
                            cost: Amounts) returns (decision: Decision)
      requires Valid() && pool != null
      modifies pool, pool.deny
      ensures (pool.View(), decision) == Spec.OnStoreErrorFast(old(pool.View()), env, i, failOpen, key, limits, cost)
    {
      if failOpen {
        var covered := pool.Has(env.clock(i), key, cost, limits);
        if covered {
          var id := env.ids(1);
          if id.None? {
            return Spec.Denial(limits, Backend, 1000);
          }
          var debited := pool.TryDebit(env.clock(i + 1), key, limits, cost, id.value);
          if debited.Some? {
            return debited.value;
          }
        }
      }
      return Spec.Denial(limits, Backend, 1000);
    }

    // ----- Settle, SettleIO and Refund

    method Settle(env: Spec.Env, id: string, actualTokens: int) returns (reply: Result<Decision>)
      requires Valid()
      modifies Repr
      ensures (PoolView(), store.View(), reply) ==
              Spec.SettleAny(old(PoolView()), old(store.View()), env, id, false, Amounts(0, actualTokens, 0, 0))
    {
      hide S.Settle, S.Borrow, P.SettleLocal, P.ApplyDeficit, P.CreditLease, P.PurgedPool;
      if pool != null {
        var found := pool.GetReservation(env.clock(0), id);
        if found.Some? {
          var r := found.value;
          if r.split {
            return Err(WrongSettleMode);
          }
          reply := pool.SettleLocal(env.clock(1), id, actualTokens);
          if reply.Err? {
            return;
          }
          var need := reply.value.overshoot.tpm;
          if need > 0 {
            var br := StoreBorrow(env, r.key, r.limits, BorrowSpec(Amounts(0, need, 0, 0), Amounts(0, need, 0, 0)));
            if br.Ok? && br.value.allowed {
              pool.CreditLease(env.clock(3), r.key, r.limits, br.value.got.rpm, br.value.got.tpm, 0, 0);
              P.ApplyReadsTokens(pool.View(), env.clock(4), id, false, br.value.got);
              pool.ApplyBorrowedDeficit(env.clock(4), id, br.value.got.tpm);
              var updated := pool.GetReservation(env.clock(5), id);
              if updated.Some? {
                return Ok(updated.value.last);
              }
            }
          }
          return;
        }
      }
      reply := StoreSettle(env, id, actualTokens);
    }

    method SettleIO(env: Spec.Env, id: string, actualInput: int, actualOutput: int) returns (reply: Result<Decision>)
      requires Valid()
      modifies Repr
      ensures (PoolView(), store.View(), reply) ==
              Spec.SettleAny(old(PoolView()), old(store.View()), env, id, true,
                             Amounts(0, 0, actualInput, actualOutput))
    {
      hide S.Settle, S.Borrow, P.SettleLocal, P.ApplyDeficit, P.CreditLease, P.PurgedPool;
      if pool != null {
        var found := pool.GetReservation(env.clock(0), id);
        if found.Some? {
          var r := found.value;
          if !r.split {
            return Err(WrongSettleMode);
          }
          reply := pool.SettleLocalIO(env.clock(1), id, actualInput, actualOutput);
          if reply.Err? {
            return;
          }
          var over := reply.value.overshoot;
          if over.itpm > 0 || over.otpm > 0 {
            var need := Amounts(0, 0, over.itpm, over.otpm);
            var br := StoreBorrow(env, r.key, r.limits, BorrowSpec(need, need));
            if br.Ok? && br.value.allowed {
              pool.CreditLease(env.clock(3), r.key, r.limits, br.value.got.rpm, 0, br.value.got.itpm,
                               br.value.got.otpm);
              P.ApplyReadsTokens(pool.View(), env.clock(4), id, true, br.value.got);
              pool.ApplyBorrowedDeficitIO(env.clock(4), id, br.value.got.itpm, br.value.got.otpm);
              var updated := pool.GetReservation(env.clock(5), id);
              if updated.Some? {
                return Ok(updated.value.last);
              }
            }
          }
          return;
        }
      }
      reply := StoreSettleIO(env, id, actualInput, actualOutput);
    }

    method Refund(env: Spec.Env, id: string) returns (reply: Result<()>)
      requires Valid()
      modifies Repr
      ensures (PoolView(), store.View(), reply) == Spec.RefundAny(old(PoolView()), old(store.View()), env, id)
    {
      hide S.Refund, P.RefundLocal, P.PurgedPool;
      if pool != null {
        var found := pool.GetReservation(env.clock(0), id);
        if found.Some? {
          reply := pool.RefundLocal(env.clock(1), id);
          return;
        }
      }
      reply := StoreRefund(env, id);
    }

    // ----- Close

    method StoreReturn(rs: Spec.Returns, k: string, lease: P.Lease) returns (reply: Result<()>)
      modifies store
      ensures (store.View(), reply) == Spec.ReturnOne(old(store.View()), rs, k, lease)
    {
      if rs.fault(k).NotSent? {
        return Err(Unavailable);
      }
      reply := store.Return(rs.atMs(k), P.SplitKey(k), lease.limits,
                            lease.balance.rpm, lease.balance.tpm, lease.balance.itpm, lease.balance.otpm);
      if rs.fault(k).ReplyLost? {
        reply := Err(Unavailable);
      }
    }

    /** Close returns the snapshot entry by entry, in the order the map happens to be iterated in. */
    method Close(nowMs: int, rs: Spec.Returns) returns (first: Result<()>, ghost order: seq<string>)
      requires Valid()
      modifies Repr
      ensures pool == null ==> first == Ok(()) && order == [] && store.View() == old(store.View())
      ensures pool != null ==>
                var (p, out) := P.Snapshot(old(pool.View()), nowMs);
                pool.View() == p && Spec.Visits(order, out) &&
                (store.View(), first) == Spec.ReturnEach(old(store.View()), rs, out, order)
    {
      if pool == null {
        return Ok(()), [];
      }
      hide P.Snapshot, Spec.Visits, Spec.ReturnEach;
      var out := pool.SnapshotLeases(nowMs);
      first, order := ReturnSnapshot(rs, out);
    }

    method ReturnSnapshot(rs: Spec.Returns, out: map<string, P.Lease>)
      returns (first: Result<()>, ghost order: seq<string>)
      modifies store
      ensures Spec.Visits(order, out)
      ensures (store.View(), first) == Spec.ReturnEach(old(store.View()), rs, out, order)
    {
      hide Spec.ReturnOne, Spec.Lists, Spec.ReturnEach;
      first, order := Ok(()), [];
      var todo := out.Keys;
      ghost var done: set<string> := {};
      Nothing(store.View(), rs, out);
      while todo != {}
        invariant todo !! done && (forall k :: k in out <==> k in todo || k in done)
        invariant Spec.Lists(order, done) && forall k | k in order :: k in out
        invariant (store.View(), first) == Spec.ReturnEach(old(store.View()), rs, out, order)
        decreases |todo|
      {
        var k :| k in todo;
        var reply := StoreReturn(rs, k, out[k]);
        Spec.ReturnsOneMore(old(store.View()), rs, out, order, k);
        Spec.ListsOneMore(order, done, k);
        if first.Ok? {
          first := reply;
        }
        order := order + [k];
        done := done + {k};
        todo := todo - {k};
      }
      assert done == out.Keys;
    }

    static lemma Nothing(books: S.Books, rs: Spec.Returns, out: map<string, P.Lease>)
      ensures Spec.Lists([], {}) && Spec.ReturnEach(books, rs, out, []) == (books, Ok(()))
    {
    }
  }
}
