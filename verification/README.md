# valve's budget engine, modelled and proved in Dafny

valve limits model traffic per tenant: requests and tokens per minute, with the tokens either in one
budget ("classic") or split into input and output. This project models the part of it that keeps the
budgets, and proves what it guarantees:

- the token bucket: refill, consume, credit, debit-with-floor, retry time;
- the store: buckets per key and a table of reservations, once as the Go in-memory store and once as the
  Redis scripts;
- the lease pool that each pod keeps in front of the store, with its deny cache;
- the limiter that ties a pool to a store, and a whole fleet of pods and threads sharing one store.

`dafny verify dfyconfig.toml` checks everything.

## How to read it

Amounts, levels and time are exact. A level counts units of 1/60000 token and time is in whole
milliseconds, so a bucket of capacity c gains exactly c units per millisecond. `RealBucket` is the
bucket code as it stands, over real numbers and with its 1e-9 slack, and shows that nothing is lost by
counting units.

| layer | what it does, as functions | the code, as classes | what is proved |
|---|---|---|---|
| values | `Quota` | | |
| bucket | `Bucket` | (pure code) | `RealBucket`, `BucketLaws` |
| Go store | `StoreSpec` | `MemoryStore` | `StoreLedger`, `StoreRuns`, `StoreLaws`, `Modes`, `Replies`, `Transparency`, `Waiting`, `Lifecycle` |
| Redis store | `ScriptSpec` | `RedisScripts` | `Bisimulation` |
| pool | `PoolSpec` | `LeasePool` | `PoolLedger`, `PoolReplies` |
| limiter | `LimiterSpec` | `Limiter` | `LimiterLaws`, `LimiterReplies`, `Solo`, `Answers` |
| fleet | `Fleet` | | `FleetLedger`, `Surplus`, `FleetBounds`, `LeaseBounds`, `Lifecycle`, `Witnesses`, `Counterexamples` |

The classes change their fields in place, as the source does, and every method is proved to take the old
state to the new one and to reply exactly as the function in the second column says. Laws are proved about
those functions. Clock readings, new ids, the fate of a call over the network and the order of map
iteration are parameters.

In `Fleet` every section of code that runs under one mutex, and every store call, is one step; a limiter
call is a small program of such steps. Any number of threads run on any number of pods, store calls may
fail before or after their effect, pods crash, leases and reservations expire, and each pod's clock may
read anything. Only the store's clock does not go back. `Solo` shows that a method of class `Limiter`
that nothing interferes with is a run of this system, and `Answers` that such a run charges each bucket with
exactly what the caller is told: what the bounds below count as admitted is what is answered.

Replies are pinned to the state they speak of, field by field: the remaining counts are what the buckets or the
lease hold after the call (`Replies`, `PoolReplies`), an admission is a reservation written and a refusal names its
reason and wait (`LimiterReplies`), and the budgets a call uses follow from the limits as given (`Modes`).

Two ideas carry the main proofs. The *potential* of a bucket (`StoreLedger.Potential`) is what it would
hold if it refilled at the largest limit in play: every call pays for what it takes out of it, and only
time fills it, which copes with lazy refill and with limits that change from call to call. The *account*
of a bucket (`FleetLedger.Account`) adds up what steps move; every step changes what the fleet holds by
exactly its entry.

## Where the code and its documents part

The model follows the code.

- A settlement that overshoots borrows what is missing and then puts the grant into the lease twice
  (`pkg/limiter/limiter.go:242-243` with `pkg/lease/lease.go:370`, and the split counterparts). The token
  ledger has a surplus term for it; `Witnesses.LedgerNeedsSurplus` is a run in which the ledger does not
  close without it, and `Surplus.PlainLedgerIff` says for every run when it does. Requests are never affected.
- `README.md:65`, `WHAT_THIS_IS.md:212` and `docs/STICKY_ROUTING.md:26` bound unused lease credits by pods
  times chunk. That is not an invariant, for four reasons: a check that is short on one axis borrows a chunk on
  every axis (`Counterexamples.LeaseExceedsChunk`), a refund and a settlement put credits back on top of what has
  been borrowed since (`Counterexamples.RefundsExceedChunk`), deficit grants are credited and applied, and a
  thread that loses its credits to another between credit and debit leaves the rest of its grant behind.
  `LeaseBounds.WithinIff` is the exact condition over runs: every pod keeps its unclaimed credits within its chunk
  throughout if and only if no event brings a lease more than fits. `LeaseBounds.PodsTimesChunk` draws the
  documented bound from it, `LimiterLaws.ChunkBoundIff` is the condition for one whole admission, and
  `FleetBounds.WindowOvershoot` bounds the overshoot by the credits outstanding without any such condition.
- `WHAT_THIS_IS.md:254` promises the longer wait when both budgets are exhausted. The refusal carries the
  wait of the first short axis only (`Counterexamples.RetryAfterIsTheFirstWait`). Waiting that long is enough
  exactly when it is the longest of the waits (`Waiting.FirstWaitSufficesIff`), and `Waiting.RefusalsAreFew`
  bounds the retries.
- `SECURITY.md:21` lets a fail-open pod admit from its lease when the store cannot be asked. The debit that comes
  first has taken that chance already: failing open then changes the answer only if another thread fills the lease
  in between, or if no id could be made (`LimiterReplies.AdmittedIff`).
- A positive credit under a negative capacity takes a level below zero (`RealBucket.BelowZeroIffSinks`).
  Nothing validates limits against it; no other call can.
- Debit-with-floor is not monotone in the level (`Counterexamples.DebitFloorIsNotMonotone`), so refund
  transparency is about traffic without over-reserve settlements of the same key in between.
- When the clock steps back and the limit is lowered, a Borrow can grant what it does not debit
  (`Counterexamples.GrantNotTaken`); `LimiterLaws.VerdictIff` is the exact condition, on the stored bucket, the
  clock, the limit and what is asked for. The bounds over runs therefore assume either a store clock that does
  not go back, or fixed limits.

## Model

| member | source | states |
|---|---|---|
| RealBucket.RefillScales | pkg/bucket/bucket.go:24-44 | refilling over real numbers and refilling in units of 1/60000 token are the same function |
| RealBucket.RetryScales | pkg/bucket/bucket.go:124-135 | the retry time over real numbers is the integer one, to the second |
| RealBucket.ConsumeScales | pkg/bucket/bucket.go:57-92 | consuming with the 1e-9 slack and real levels decides, debits and reports exactly as integer units do |
| RealBucket.SlackIsHarmless | pkg/bucket/bucket.go:74 | on the grid of 1/60000 token the 1e-9 slack never admits what a plain comparison refuses |
| RealBucket.CreditScales | pkg/bucket/bucket.go:95-102 | crediting over real numbers and in units is the same function |
| RealBucket.DebitFloorScales | pkg/bucket/bucket.go:106-122 | debit-with-floor over real numbers and in units is the same function, overshoot included |
| RealBucket.RunStaysOnGrid | pkg/bucket/bucket.go:24-122 | over every sequence of operations with any capacities and any clock a level stays a multiple of 1/60000 token |
| RealBucket.BelowZeroIffSinks | pkg/bucket/bucket.go:95-102 | an operation takes a non-negative level below zero if and only if it is a positive credit under a negative capacity |
| RealBucket.RunStaysNonNegative | pkg/bucket/bucket.go:24-122 | without such credits every level of every run is non-negative |
| BucketLaws.RefillTwice | pkg/bucket/bucket.go:24-44 | refilling at two instants is refilling at the later one, so lazy refill loses nothing |
| BucketLaws.ReserveThenCredit | pkg/bucket/bucket.go:57-102 | reserving r and later giving back r - a leaves what consuming a at once would have left |
| BucketLaws.RefundIsTransparent | pkg/bucket/bucket.go:24-102 | reserve, let any admitted debits and credits happen, refund: all of them would have been admitted anyway, and the level ends between the level without the reservation and that plus the amount, capped |
| BucketLaws.RefundUndoes | pkg/bucket/bucket.go:57-102 | with nothing in between a refund leaves the bucket exactly as if the reservation had never been |
| BucketLaws.WaitIsEnough | pkg/bucket/bucket.go:124-135 | after the returned wait a cost that fits the capacity is there |
| BucketLaws.WaitIsTight | pkg/bucket/bucket.go:124-135 | a second or more before the wait is over it is not yet there |
| BucketLaws.NothingRefills | pkg/bucket/bucket.go:124-128 | a bucket without a positive capacity refuses every cost, says an hour, and refuses again whenever it is asked |
| BucketLaws.AdmittedStaysAdmitted | pkg/bucket/bucket.go:57-92 | what would be admitted now is admitted later when nothing else happens |
| MemoryStore.Store.constructor | pkg/store/memory/memory.go:56-69 | a new store has no buckets and no reservations |
| MemoryStore.Store.PurgeExpired | pkg/store/memory/memory.go:79-85 | the loop deletes exactly the reservations past their expiry |
| MemoryStore.Store.Check | pkg/store/memory/memory.go:110-136 | validation, purge and admission in that order; new state and reply are those of the specification function whose laws are below |
| MemoryStore.Store.CheckClassic | pkg/store/memory/memory.go:138-195 | all-or-nothing on requests and tokens |
| MemoryStore.Store.CheckSplit | pkg/store/memory/memory.go:197-288 | all-or-nothing on requests, input and output tokens |
| MemoryStore.Store.Settle | pkg/store/memory/memory.go:291-347 | classic settlement, with replays and the order of errors |
| MemoryStore.Store.SettleIO | pkg/store/memory/memory.go:350-423 | split settlement, axis by axis |
| MemoryStore.Store.Refund | pkg/store/memory/memory.go:605-647 | gives back what was reserved under the reservation's own limits, once |
| MemoryStore.Store.Borrow | pkg/store/memory/memory.go:426-450 | validation and choice of mode |
| MemoryStore.Store.BorrowClassic | pkg/store/memory/memory.go:463-505 | a chunk on both axes or a refusal for the first short one |
| MemoryStore.Store.BorrowSplit | pkg/store/memory/memory.go:507-568 | the same on three axes |
| MemoryStore.Store.Return | pkg/store/memory/memory.go:571-602 | capped credits on the axes of the mode |
| StoreLaws.AdmitsIff | pkg/store/memory/memory.go:110-288 | a request is admitted if and only if it is well formed and every axis of its mode has its cost |
| StoreLaws.AdmittedIsPending | pkg/store/memory/memory.go:172-186 | an admitted request leaves a pending reservation with its terms until it expires |
| StoreLaws.RefundUndoesCheck | pkg/store/memory/memory.go:605-647 | refunding before expiry leaves every bucket of the store as if the request had never come |
| StoreLaws.SettleIsTheRightGuess | pkg/store/memory/memory.go:291-423 | reserving too much and settling later leaves every bucket as if the actual amounts had been requested, which would have been admitted |
| StoreLaws.SettleBeyondReserve | pkg/store/memory/memory.go:319-329 | settling beyond the reservation takes the excess less the reported overshoot, and an overshoot leaves less than one token |
| Modes.SplitCheck | pkg/api/types.go:41-49 | with both the input and the output limit positive a check gives the same books and reply whatever the classic limit and cost, writes no classic bucket, and admits no cost above the request, input or output limit |
| Modes.SplitBorrow | pkg/store/memory/memory.go:446-568 | nor does the classic limit matter to a Borrow then; one that is allowed had its minimum on all three axes |
| Modes.SplitReturn | pkg/store/memory/memory.go:583-594 | nor to a return, which credits the request, input and output buckets |
| Modes.ClassicCheck | pkg/api/types.go:41-49 | with neither positive a check gives the same books and reply whatever the input and output costs, writes no input or output bucket, and admits no cost above the request or token limit |
| Modes.ClassicBorrow | pkg/store/memory/memory.go:446-505 | a Borrow then grants and writes nothing on input and output, and had its minimum on requests and tokens |
| Modes.ClassicReturn | pkg/store/memory/memory.go:595-601 | a return goes to the request and token buckets unless both limits are positive, also when just one of them is |
| Modes.BorrowFitsLimits | pkg/store/memory/memory.go:426-568 | with nothing stored later than now no Borrow of more than a limit of its mode is allowed |
| Modes.MalformedIff | pkg/api/types.go:52-59 | a check or Borrow is malformed if and only if exactly one of the input and output limits is positive, the subject is empty, or (for a check) the id is; no bucket changes then |
| Modes.NegativesAreNothing | pkg/store/memory/memory.go:102-130 | negative costs count as zero |
| Replies.CheckShows | pkg/store/memory/memory.go:138-288 | with nothing stored later than now, the counts a check replies are the whole tokens its buckets hold afterwards, admitted or refused, with the classic field repeating output in split mode; the id is there if and only if it was admitted |
| Replies.SettleShows | pkg/store/memory/memory.go:331-346 | with nothing stored later than now, a settlement replies what its buckets hold afterwards, under the reservation's limits, and records that reply |
| Replies.AdmissionIsRecorded | pkg/store/memory/memory.go:172-186 | a reservation's mode is that of its limits, and its limits are not negative |
| Replies.BorrowShows | pkg/store/memory/memory.go:463-568 | with nothing stored later than now, a Borrow replies what its buckets hold afterwards, and a refusal grants nothing |
| Replies.SettleAnswers | pkg/store/memory/memory.go:299-311 | a settlement of a reservation that is gone, of the other mode, settled, or refunded is answered not found, wrong mode, the recorded decision, or refunded, in this order |
| Replies.RefundAnswers | pkg/store/memory/memory.go:613-622 | a refund of one that is gone or settled fails and says which; any other succeeds |
| Replies.ReservationsLast | pkg/store/memory/memory.go:185 | a reservation can be settled or refunded until 15 * 60 * 1000 ms after its check, and its outcome asked for as long after that, to the millisecond |
| StoreLedger.CallPays | pkg/store/memory/memory.go:87-647 | whatever a call takes out of a bucket, read off its reply, comes out of the bucket's potential |
| StoreLedger.CheckWrites | pkg/store/memory/memory.go:138-195 | an admitting check stores each bucket of its mode debited; any other leaves all alone |
| StoreLedger.SettleWrites | pkg/store/memory/memory.go:299-346 | a settlement stores the settled token buckets, never the request bucket, and reports that overshoot |
| StoreLedger.RefundWrites | pkg/store/memory/memory.go:613-646 | a refund credits every bucket of the mode, and only for a pending reservation |
| StoreLedger.BorrowWrites | pkg/store/memory/memory.go:452-568 | an allowed Borrow consumes its grant on every bucket of the mode; a refused one changes none and grants nothing |
| StoreLedger.ReturnWrites | pkg/store/memory/memory.go:571-602 | a return credits the buckets of the mode of its limits, and only when there is something to return |
| StoreLedger.HoldsFollowFlow | pkg/store/memory/memory.go:110-647 | what reservations hold changes by exactly what reservation calls took, less what was forgotten; lease calls touch no reservation |
| StoreLedger.ReservationOrigin | pkg/store/memory/memory.go:172-186 | a reservation keeps its terms; only an admitting check writes new ones |
| StoreRuns.RunBound | pkg/store/memory/memory.go:87-647 | over every run a bucket gives no more than its potential and what the clock's forward motion adds |
| StoreRuns.WindowBound | pkg/store/memory/memory.go:87-647 | with a clock that does not go back and limits at most m, however they change, debits minus credits over any window are at most m plus m per minute |
| StoreRuns.WanderingClockBound | pkg/bucket/bucket.go:35-43 | with a fixed limit the same holds for any positive clock, counting only its forward motion |
| StoreRuns.UsageBound | pkg/store/memory/memory.go:291-423 | reserved amounts while pending or forgotten, and actual amounts up to reported overshoot, never exceed m plus m per minute since a cold start |
| Waiting.RefusalNamesFirst | pkg/store/memory/memory.go:148-256 | a refusal names the first short axis in order, carries that axis's wait, and changes no bucket |
| Waiting.WaitMovesOn | pkg/store/memory/memory.go:148-256 | retrying after the wait without other traffic, a second refusal names a strictly later axis |
| Waiting.RefusalsAreFew | pkg/store/memory/memory.go:148-256 | at most two refusals in a row in classic mode and three in split mode when every cost fits its limit |
| Waiting.TooLargeIsNeverAdmitted | pkg/bucket/bucket.go:65-73 | a cost above its limit is refused at any time, whatever the store holds |
| Waiting.FirstWaitSufficesIff | WHAT_THIS_IS.md:254 | waiting exactly the returned time is enough if and only if no axis of the mode had a longer wait when the request was refused |
| Waiting.RefusedBorrow | pkg/store/memory/memory.go:477-547 | a refused Borrow names the first short axis in order and its wait, and changes nothing |
| Waiting.RefusalCanBeRemembered | pkg/lease/denycache.go:39-65 | after a refused Borrow, whatever follows short of net credits to that bucket, a request for as much made a second before the wait is over is refused as well |
| Lifecycle.FinishedAtMostOnce | pkg/store/memory/memory.go:299-346 | over any run that does not reuse its id a reservation is settled or refunded at most once, and never when it is not pending |
| Lifecycle.OnlyFinishingMoves | pkg/store/memory/memory.go:613-646 | a settlement or refund that does not finish its reservation moves no tokens |
| Lifecycle.FinishedStays | pkg/store/memory/memory.go:342-345 | a finished record stays unchanged until it is purged |
| Lifecycle.SettleReplaysIdentically | pkg/store/memory/memory.go:306-308 | settling again with any argument returns the identical decision for fifteen minutes at least, later that or not found, and moves nothing |
| Lifecycle.UnexpiredStays | pkg/store/memory/memory.go:79-85 | no call forgets a reservation before its expiry |
| Transparency.RunFollows | pkg/store/memory/memory.go:110-647 | two stores that differ by a request that one of them admitted give every check of admitted traffic the same verdict and stay within the request's cost of each other |
| Transparency.RefundLeavesNoTrace | pkg/store/memory/memory.go:605-647 | over the whole store: check, any admitted traffic without borrowing, refund; every check got the verdict it would have got, the request's buckets end between the level without it and that plus the cost, capped, and all others are the same |
| Lifecycle.FinishedAtMostOnceLocally | pkg/lease/lease.go:216-337 | the same for a pod's reservation in every interleaving of the fleet |
| Lifecycle.OnlyFinishingMovesLocally | pkg/lease/lease.go:422-455 | a local settlement or refund that does not finish its reservation changes no lease |
| RedisScripts.RedisStore.Check | pkg/store/redis/redis.go:129-176 | picks the script for the mode after the client's validation |
| RedisScripts.RedisStore.CheckScript | pkg/store/redis/lua/check.lua:5-101 | the classic check script, hash by hash |
| RedisScripts.RedisStore.CheckIoScript | pkg/store/redis/lua/check_io.lua:5-116 | the split check script |
| RedisScripts.RedisStore.Settle | pkg/store/redis/lua/settle.lua:5-119 | the classic settle script, which also writes the refilled request bucket |
| RedisScripts.RedisStore.SettleIO | pkg/store/redis/lua/settle_io.lua:5-132 | the split settle script |
| RedisScripts.RedisStore.Refund | pkg/store/redis/lua/refund.lua:5-63 | both refund scripts |
| RedisScripts.RedisStore.BorrowScript | pkg/store/redis/lua/borrow.lua:6-85 | the classic borrow script |
| RedisScripts.RedisStore.BorrowIoScript | pkg/store/redis/lua/borrow_io.lua:5-96 | the split borrow script |
| RedisScripts.RedisStore.Return | pkg/store/redis/lua/return_io.lua:5-55 | both return scripts, with the early exit of the split one |
| Bisimulation.CallAgrees | pkg/store/redis/lua/settle.lua:51-119 | stores that agree answer a call alike and still agree, though they persist different refill points |
| Bisimulation.SameAnswers | pkg/store/redis/lua/check.lua:20-101 | over every run with non-negative limits fixed per key, a clock that does not go back and keys that both stores name apart alike, the Go store and the Redis scripts give the same replies, call by call |
| Bisimulation.NamesAgree | pkg/store/redis/redis.go:87-104 | as long as no subject has a NUL or a closing brace, two keys share memory buckets if and only if they share Redis hashes |
| Bisimulation.NamesDiffer | pkg/store/redis/redis.go:94-98 | with a NUL, and with closing braces, two keys for which that fails, one in each direction |
| LeasePool.DenyCache.Get | pkg/lease/denycache.go:39-52 | a hit until the entry's instant, with the time left; a stale entry is deleted |
| LeasePool.DenyCache.Set | pkg/lease/denycache.go:55-65 | remembers a refusal for its wait, a second when there is none |
| LeasePool.DenyCache.Clear | pkg/lease/denycache.go:68-72 | forgets the key and no other |
| LeasePool.Pool.PurgeReservations | pkg/lease/lease.go:88-94 | deletes exactly the reservations past their expiry |
| LeasePool.Pool.GetLease | pkg/lease/lease.go:96-107 | finds a live lease and deletes a lapsed one |
| LeasePool.Pool.Has | pkg/lease/lease.go:109-127 | whether a live lease covers the cost on the axes of the mode |
| LeasePool.Pool.CreditLease | pkg/lease/lease.go:130-146 | adds to a live lease or starts a new one, and renews it |
| LeasePool.Pool.TryDebit | pkg/lease/lease.go:149-197 | moves the cost from the lease to a pending reservation, or changes nothing but what has expired |
| LeasePool.Pool.GetReservation | pkg/lease/lease.go:207-213 | looks up after purging |
| LeasePool.Pool.SettleLocal | pkg/lease/lease.go:216-278 | classic local settlement |
| LeasePool.Pool.SettleLocalIO | pkg/lease/lease.go:281-355 | split local settlement |
| LeasePool.Pool.ApplyBorrowedDeficit | pkg/lease/lease.go:358-382 | adds a grant to the lease and pays recorded overshoot out of it |
| LeasePool.Pool.ApplyBorrowedDeficitIO | pkg/lease/lease.go:385-420 | the same on the split axes |
| LeasePool.Pool.RefundLocal | pkg/lease/lease.go:423-455 | gives the reservation back to the lease, once |
| LeasePool.Pool.SnapshotLeases | pkg/lease/lease.go:468-495 | the loop hands out the live leases that hold something and zeroes them |
| PoolLedger.DebitStock | pkg/lease/lease.go:149-197 | a debit moves credits from lease to reservation and makes none; balances stay non-negative |
| PoolLedger.SettleStock | pkg/lease/lease.go:216-355 | a local settlement moves credits between lease and reservation and neither makes nor loses any |
| PoolLedger.RefundStock | pkg/lease/lease.go:423-455 | nor does a local refund |
| PoolLedger.ApplyStock | pkg/lease/lease.go:358-420 | applying a deficit grant puts the whole grant on top of what the pool had |
| PoolLedger.SnapshotStock | pkg/lease/lease.go:468-495 | closing empties the live leases into the snapshot |
| PoolReplies.DebitShows | pkg/lease/lease.go:149-197 | a debit goes through if and only if a live lease has the cost on the axes of the mode; the lease then has so much less, the reservation is pending for 15 * 60 * 1000 ms under its id, and the reply counts what is left in the lease |
| PoolReplies.LocalSettleShows | pkg/lease/lease.go:216-355 | a local settlement replies and records what the lease holds afterwards, and on each token axis the overshoot that neither reservation nor lease covered |
| PoolReplies.LocalSettleAnswers | pkg/lease/lease.go:221-233 | its errors and replays follow from the reservation alone, in the store's order, and change no lease |
| PoolReplies.LocalRefundAnswers | pkg/lease/lease.go:423-455 | a local refund gives the reserved amounts of the mode back to the lease, repeats as a success and fails on a settled reservation |
| PoolReplies.ApplyShows | pkg/lease/lease.go:358-420 | a grant applied to a live lease pays the recorded overshoot axis by axis, and the record shows what is left of both |
| PoolReplies.LeaseLimits | pkg/lease/lease.go:130-146 | credits go back to the store under the limits of the last credit of their lease, or of the reservation for which a settlement or refund started it; no other step inside a pod touches them |
| PoolReplies.NotedIsFound | pkg/lease/denycache.go:39-65 | a noted refusal is found with its axis and the time left until its wait is over, a second when it names none, then forgotten; other keys are not affected |
| PoolReplies.Defaults | pkg/lease/config.go:15-42 | unset chunks are 5 requests and 500 tokens and an unset lifetime two seconds; exactly complete configurations stay as they are |
| Limiter.Limiter.constructor | pkg/limiter/limiter.go:43-53 | a limiter with or without a pool, in one of the fail modes |
| Limiter.Limiter.Check | pkg/limiter/limiter.go:67-75 | validates, then takes the direct or the fast path |
| Limiter.Limiter.CheckDirect | pkg/limiter/limiter.go:77-87 | one store call; errors are decided by the fail mode |
| Limiter.Limiter.CheckFast | pkg/limiter/limiter.go:89-144 | deny cache, lease, Borrow, lease again, in that order, with every early exit |
| Limiter.Limiter.OnStoreErrorFast | pkg/limiter/limiter.go:211-222 | an error is forgiven only when failing open and the lease covers the cost |
| Limiter.Limiter.Settle | pkg/limiter/limiter.go:225-253 | local settlement and one Borrow for an overshoot, or the store's settlement |
| Limiter.Limiter.SettleIO | pkg/limiter/limiter.go:256-284 | the same in split mode |
| Limiter.Limiter.Refund | pkg/limiter/limiter.go:287-294 | local refund, or the store's |
| Limiter.Limiter.Close | pkg/limiter/limiter.go:297-308 | every snapshot entry is returned once, in some order, and the first error is the reply |
| Solo.CheckIsARun | pkg/limiter/limiter.go:89-144 | a fast-path check with nothing interfering is a run of the fleet |
| Solo.SettleIsARun | pkg/limiter/limiter.go:225-284 | so is a settlement |
| Solo.RefundIsARun | pkg/limiter/limiter.go:287-294 | so is a refund |
| Solo.CloseIsARun | pkg/limiter/limiter.go:297-308 | so is closing, whatever the order of the returns and however long each takes |
| LimiterLaws.DirectAdmission | pkg/limiter/limiter.go:77-87 | without a pool a request is admitted if and only if the store's admission arrives, or the limiter fails open and there is no id, no answer or an error; only the former leaves a reservation |
| LimiterLaws.AllowedBorrowAdmits | pkg/limiter/limiter.go:128-143 | an allowed Borrow means the request is admitted, and the backend refusal is out of reach, if and only if less than a lease lifetime passes between crediting and debiting |
| LimiterLaws.UseRenewsLease | pkg/lease/lease.go:130-455 | after a credit, debit, settlement or refund the lease lives for exactly one more lease lifetime |
| LimiterLaws.ChunkBoundIff | pkg/limiter/limiter.go:116-143 | a lease within a chunk per axis stays so over an admission by borrowing if and only if every axis held no more than the cost or the store had no more than what was missing to a chunk and the cost |
| LimiterLaws.CacheAgreesWithStore | pkg/lease/denycache.go:39-65 | a remembered refusal lasts exactly its wait, and up to a second before its end the store would refuse as well |
| LimiterLaws.RestoringForgetsRefusals | pkg/lease/lease.go:274-276 | a refund forgets its key's refusal, a settlement if and only if it gives tokens back, and neither forgets another key's |
| LimiterLaws.ReplayIsNoOpIff | pkg/limiter/limiter.go:225-284 | settling again on the fast path leaves the store alone if and only if no overshoot is on record or the Borrow for it does not go through |
| LimiterLaws.GrantsAreTaken | pkg/store/memory/memory.go:452-568 | an allowed Borrow removes exactly its grant on every axis, between minimum and the larger of minimum and chunk; a refused one changes no bucket |
| LimiterLaws.VerdictIff | pkg/store/memory/memory.go:494-497 | the debit whose verdict Borrow discards is refused if and only if the limit is negative, or more than the limit is asked for across a backward clock step over a bucket that holds more than the limit |
| LimiterLaws.SplitKeyInverts | pkg/lease/lease.go:497-504 | for a subject without NUL cutting its map key gives subject and model back, "-" for "" |
| LimiterLaws.ReturnErrsIff | pkg/store/memory/memory.go:575-577 | returning under a map key fails if and only if the subject is empty up to its first NUL |
| LimiterLaws.ClosedBuckets | pkg/limiter/limiter.go:297-308 | in whatever order, each lease goes back once to the bucket it came from, capped, and no other bucket changes |
| LimiterLaws.ClosingGains | pkg/store/memory/memory.go:571-602 | the store gains no more on a bucket than the closed lease held |
| LimiterLaws.ClosedIsEmpty | pkg/lease/lease.go:468-495 | closing zeroes every live lease and hands out exactly those that held something |
| LimiterLaws.SecondCloseDoesNothing | pkg/lease/lease.go:474-479 | closing again straight away hands out nothing and changes nothing |
| LimiterLaws.CloseErrsIff | pkg/limiter/limiter.go:301-307 | Close reports an error if and only if some return failed |
| LimiterLaws.CloseReportsFirst | pkg/limiter/limiter.go:301-307 | the error is that of the first return, in the order they were made, that failed |
| LimiterReplies.CheckAdmits | pkg/limiter/limiter.go:89-144 | on every path a fast check answers admitted if and only if it wrote a pending reservation for the clamped cost under the id it answers with, and then counts what is left in the lease; a refusal has no id and writes none |
| LimiterReplies.AdmittedIff | pkg/limiter/limiter.go:89-144 | a fast check that nothing interferes with admits if and only if the key is not denied and either a live lease has the cost, or the store lends it and less than a lease lifetime passes before the debit; when no id could be made, if the limiter fails open, one can be made then, and the lease has the cost; failing open makes no other difference |
| LimiterReplies.RefusedBecause | pkg/limiter/limiter.go:103-142 | a refused fast check names the deny entry and its time left, or the store's axis, wait and counts, or the backend for a second, and which of them it is follows from what went wrong |
| LimiterReplies.RememberedRefusal | pkg/limiter/limiter.go:103-105 | a key on the deny list is refused with the entry's axis and the time it has left, and pool and store stay as they are |
| LimiterReplies.LeaseAnswersAlone | pkg/limiter/limiter.go:112-114 | a live lease with the cost admits without the store, whatever state store and network are in |
| LimiterReplies.StoreRefusal | pkg/limiter/limiter.go:132-135 | a refused Borrow is passed on with its axis, its wait and the counts of the buckets, and the key is denied for that wait |
| LimiterReplies.StoreErrorAnswer | pkg/limiter/limiter.go:211-222 | after a store error the request is admitted if and only if the limiter fails open, an id can be made and a live lease has the cost; else it is refused for a second |
| LimiterReplies.LostGrant | pkg/limiter/limiter.go:138-142 | a grant that lapses before its debit is answered with a backend refusal for a second, remembered for a second |
| LimiterReplies.DirectAnswer | pkg/limiter/limiter.go:77-87 | without a pool the store's answer is passed on unchanged; without an answer the fail mode gives full budgets and no reservation, or a refusal for a second |
| LimiterReplies.CheckErrsIff | pkg/limiter/limiter.go:67-70 | the limiter itself rejects a check if and only if exactly one of the input and output limits is positive, and then changes nothing |
| LimiterReplies.SettleAnswersRecord | pkg/limiter/limiter.go:225-284 | whenever a fast settlement succeeds and the pool still has the reservation, the reply is the decision on record, also after a deficit was covered |
| LimiterReplies.OvershootAnswer | pkg/limiter/limiter.go:235-249 | a settlement beyond the lease is answered with no overshoot and the lease's balance if the store lends what is missing and the grant is applied in time, and otherwise with the overshoot that is left |
| LimiterReplies.DeficitIsBorrowed | pkg/limiter/limiter.go:266-271 | what is borrowed for an overshoot is the overshoot, axis by axis, and no requests |
| LimiterReplies.SettleGoes | pkg/limiter/limiter.go:225-284 | a settlement goes to the store when the pool does not know the reservation; one of the other mode is refused, and one without overshoot is answered by the pool, and neither reaches the store |
| LimiterReplies.RefundGoes | pkg/limiter/limiter.go:287-294 | a refund goes to the store when the pool does not know the reservation, and otherwise its answer is the pool's and the store is not asked |
| LimiterReplies.StoreAnswers | pkg/limiter/limiter.go:252-293 | without a pool, or for a reservation it does not know, settlements and refunds are the store's calls and answers |
| LimiterReplies.DirectRefundUndoes | pkg/limiter/limiter.go:293 | without a pool, check and refund before expiry succeed and leave every bucket as if the request had never come |
| LimiterReplies.DirectSettleIsTheRightGuess | pkg/limiter/limiter.go:252-283 | without a pool, settling for no more than was reserved leaves every bucket as a check for the actual amounts would have, which would have been admitted |
| LimiterReplies.DirectUnknown | pkg/limiter/limiter.go:252-293 | without a pool, a reservation that is not there or has expired is not found |
| Answers.AnswerIsCharged | pkg/limiter/limiter.go:89-144 | in the run that is one fast check, a bucket is charged the clamped cost if the caller is told it is admitted, and nothing if it is refused |
| FleetLedger.KeysComeBack | pkg/lease/lease.go:497-504 | cutting a map key and joining it again gives the same map key, whatever the subject, so returns reach the bucket that was borrowed from |
| FleetLedger.PoolStepBalanced | pkg/lease/lease.go:130-495 | every step inside a pod moves credits only as its entry in the account says |
| FleetLedger.StoreStepBalanced | pkg/limiter/limiter.go:128-308 | so does every store step, also when the call or its reply is lost |
| FleetLedger.EventBalanced | pkg/limiter/limiter.go:89-308 | every event leaves a sound fleet, with balances non-negative, and changes what it holds by its entry |
| FleetLedger.ExactLedger | pkg/limiter/limiter.go:235-278 | over every run, on every axis: what was held, borrowed and applied twice is what is held, returned and lost |
| FleetBounds.EventPays | pkg/store/memory/memory.go:87-647 | what an event takes from the store comes out of the bucket's potential |
| FleetBounds.RunRequests | pkg/limiter/limiter.go:89-144 | requests taken from the store are admitted, refunded, outstanding or lost, and nothing else |
| FleetBounds.WindowOvershoot | docs/STICKY_ROUTING.md:19-26 | from every sound state whose limits and stored buckets are within m, admitted minus refunded requests of a run are at most m, m per minute, and the request credits outstanding when it began |
| FleetBounds.RunCapped | pkg/limiter/limiter.go:89-308 | every run keeps a state sound and within m, so every reached state qualifies |
| FleetBounds.StretchOvershoot | docs/STICKY_ROUTING.md:19-26 | so in any stretch of any run from a cold start |
| FleetBounds.NoDoubleSpend | WHAT_THIS_IS.md:256 | from a cold start, in every interleaving with errors, lost replies, crashes and expiries, admitted minus refunded requests never exceed m plus m per minute |
| FleetBounds.FleetUsageBound | pkg/lease/lease.go:216-420 | on every axis all that is held anywhere or lost exceeds m plus m per minute by no more than the grants applied twice |
| LeaseBounds.OverfillIff | pkg/lease/lease.go:130-455 | a pod that keeps its unclaimed credits within its chunk still does after an event if and only if what the event brings (a grant less its request, a claim given up, a deficit grant credited or applied, what a settlement or refund restores) fits on top of what is there |
| LeaseBounds.WithinIff | README.md:65 | over every run every pod keeps its unclaimed credits within its chunk in every state if and only if no event overfills a lease |
| LeaseBounds.PodsTimesChunk | docs/STICKY_ROUTING.md:22-29 | in every run from a cold start without overfilling, whenever no thread is between a credit and its debit, unused credits are at most the number of pods up times the chunk |
| LeaseBounds.OverfillBreaksTheBound | docs/STICKY_ROUTING.md:22-29 | an event that overfills the lease of an only pod and leaves nobody between credit and debit leaves more than one chunk unused |
| Witnesses.BoundIsReached | pkg/store/memory/memory.go:138-195 | for every limit there is a run that admits all the request bound allows |
| Witnesses.RefusalBoundIsReached | pkg/store/memory/memory.go:148-170 | two refusals in a row, the second after the wait of the first, in classic mode |
| Witnesses.SplitRefusalBoundIsReached | pkg/store/memory/memory.go:210-256 | three refusals in a row in split mode, one for each axis |
| Witnesses.RefusalIsRemembered | pkg/lease/denycache.go:39-65 | a refusal with thirty seconds to wait is repeated twenty-nine seconds later |
| Witnesses.LedgerNeedsSurplus | pkg/limiter/limiter.go:235-247 | a run of one check and one settlement after which the fleet holds more tokens than were ever borrowed |
| Surplus.EventSurplus | pkg/lease/lease.go:358-420 | an event moves a surplus if and only if it applies a grant to a live lease, and never a negative one |
| Surplus.PlainLedgerIff | pkg/lease/lease.go:358-420 | over every run the fleet has at least what it had and borrowed; without the surplus term the ledger closes if and only if no event applies a deficit grant to a live lease |
| Surplus.ApplyConservesIff | pkg/lease/lease.go:358-382 | applying a grant conserves what the pool holds if and only if the lease is gone or the grant is zero |
| Counterexamples.LeaseExceedsChunk | README.md:65 | one pod with a request chunk of 5 holds 8 unused requests after two admissions |
| Counterexamples.RefundsExceedChunk | pkg/lease/lease.go:443-449 | two requests for a chunk each leave nothing unused, and refunding both leaves two chunks on one pod |
| Counterexamples.RetryAfterIsTheFirstWait | WHAT_THIS_IS.md:254 | both budgets short by one and by thirty seconds, and the refusal says one |
| Counterexamples.DebitFloorIsNearlyMonotone | pkg/bucket/bucket.go:106-122 | debit-with-floor loses the order of two levels by less than one token |
| Counterexamples.DebitFloorIsMonotoneIff | pkg/bucket/bucket.go:106-122 | the order is kept if and only if the lower level covers the debit, or its part of a token is at most what is over after the debit, or the part of a token, of the higher one: arithmetic on the two levels and the amount |
| Counterexamples.DebitFloorIsNotMonotone | pkg/bucket/bucket.go:106-122 | 2.9 tokens less 3 leaves 0.9, 3 tokens less 3 leaves none |
| Counterexamples.GrantNotTaken | pkg/store/memory/memory.go:492-497 | a backward clock step and a lowered limit: 95 requests granted, none debited |

## Left out

- Floating-point rounding, 64-bit overflow and time below a millisecond: levels, amounts and instants are exact
  numbers. In the bisimulation the Redis expiry of a reservation is taken to match the Go store's to the
  millisecond.
- ResetAt and the reset header times (`pkg/bucket/bucket.go:137-153`): documented as approximate; levels and
  retry times carry the content.
- Bisimulation.SameAnswers: both stores use the memory store's map keys. The Redis store names its hashes
  differently, and for subjects with a NUL or a closing brace two keys may share buckets in one store and not in the
  other; the theorem is about keys for which they do not, which `Bisimulation.NamesAgree` guarantees for all others.
- Script loading, reply parsing and retries of the Redis client: only which script runs for which mode, the
  client's own validation and the order of errors are modelled. The lookup of a reservation's mode and the script
  that follows it are one step.
- The HTTP and gRPC servers, middleware, headers, metrics, logging, the language-model helpers and the Python
  client: they copy fields or need a network.
- Hit, miss and borrow counters of the pool, and the creation time of a reservation: nothing decides on them.
- Random ids: an id is any string, or none when it cannot be made. The bounds and ledgers hold for repeated ids;
  an overwritten reservation counts as gone.
- FleetBounds.NoDoubleSpend: does not count a direct check that fails open on a store error, which admits without
  a debit by design; `LimiterLaws.DirectAdmission` says exactly when that happens, also when no id can be made.
  Fast-path fail-open is counted.
- Fleet: pod clocks are arbitrary in it, which covers more than any real pod does; the field of a reservation that
  records its settled amount exists for the ledgers and is read by no operation.
- Cancellation and deadlines of calls: a call that is cancelled is one of the two faults, not sent or reply lost.
