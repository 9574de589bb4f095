# The capacity-allocation protocol of line

line hands out the capacity of workers to evaluations ("evals"). All state sits in four
tables (pools, workers, allocs, replicas) and a set of queues, and three kinds of actors
change it at the same time: API requests, schedulers that turn queued evals into allocs, and
a periodic sweeper that takes expired allocs, replicas and workers back. There are no locks
and no transactions: every guarantee comes from the order of single conditional writes and
queue operations. This project models that protocol and proves its guarantees.

## How it is built

Two layers, and a bridge between them.

**Single calls.** `Machine` is a state machine whose steps are single database or queue
calls. Any number of schedulers, sweepers and completion requests run side by side. A process
may act on query results of any age, any call may fail, and a process may stop after any call.
History fields (registered capacity, recorded allocs, sent messages and the request each
descends from, leaked and excess credit) influence no step. On every run:
`Integrity` (references are sound, deleted rows do not come back), `Ledger` (the capacity
equation), `Lineage` (nothing accepted is lost), `Content` (and it stays what it was), `Guarantees` (the theorems),
`Oversubscription` (exactly when a worker's books stop balancing), `Exposure` (exactly when a
worker can still be oversubscribed), `Redelivery` (how often one evaluation can be placed).

**Whole requests.** `Store` is a class with the tables and queues as fields and one method per
primitive; any call may be down, and the class counts such faults. `Sweeper`, `Scheduler` and
`Gateway` are the handlers with their loops, each proved against a closed-form effect on the
whole state (`Tables`, `Sweeping`): exactly that effect without faults, and a precisely stated
part of it with faults. Beside the closed form, the contracts and lemmas state what a caller
sees row by row, in terms of the tables alone. `Timeline` strings these effects, whole or cut short by failing
calls, into runs with a moving clock and proves lease exactness and pool drain; `Effort` bounds
the work of a run, `Spread` bounds how
uneven claims make a pool, `Readers` says what queries and choices return.

**Bridge.** `Bridge` shows that a process of the machine which is left alone for a round of the
receive loop, a page of a sweep or a completion, and the machine's steps for every other request,
change tables and queues as the request-level effect says.

`Types`, `Names` and `Sums` hold the rows, the name formats and sums over maps. The file
`dfyconfig.toml` names all files of the project.

## What the program does not guarantee

- *Capacity is conserved* and *a worker is never oversubscribed* are false of the program.
  `releaseAlloc` deletes the row unconditionally and then credits the worker
  (line/handle_release.go:130-144), so two overlapping releases of one alloc credit twice.
  `Oversubscription.OversubscriptionHappens` gives such a run, for every configuration.
  - Capacity: `Oversubscription.BooksBalanceExactly` says that the books of a worker balance if
    and only if no credit was applied to it for a delete that removed nothing. A second release
    whose credit fails does no harm and is not counted.
  - Oversubscription: `Exposure.OverloadExactly` says that a worker can be oversubscribed without
    any further credit of that kind if and only if what it got that way exceeds the capacity
    that was leaked. So one such credit is enough, unless at least as much was lost before.
  - Two repairs are proved sufficient: no overlapping releases (`ExclusiveNeverOversubscribed`),
    or crediting only if the delete removed a row (`GuardedNeverOversubscribed`; the `guarded`
    rule of the machine is this amendment, not the program).
- *FindReplicas finds the replicas of the dataset, and no others* is false: the query matches
  by the dataset id without the separator (line/handle_schedule.go:39). Dataset `d1` finds the
  replicas of `d10` (`Readers.PrefixConfusion`), and dataset `d:0` finds the replica of `d` on a
  worker whose id starts with 0 (`Readers.ColonConfusion`). The empty dataset id, which a heartbeat
  may list, is never looked up, so its replicas are missed (`Readers.EmptyIdMissed`).
  `Readers.FindsExactlyOnOnePage` gives the exact condition for at most ten matches: no unexpired
  row of another dataset in the pool can be confused with it in one of these two ways; for the
  empty id, that there is no unexpired replica of it. `Readers.FindsExactly` is the condition for
  any number of matches.
- *The number of attempts is bounded* is false when messages are delivered again: the retry
  count of an eval is bounded, the number of its copies is not. `Redelivery.PlacedWithoutBound`
  has, for any number of alloc ids, a run in which one accepted evaluation has a live alloc under
  each. The exact condition is `Effort.BoundedExactly`: the work of runs with a bounded number of
  accepted evaluations is bounded if and only if the number of copies is that failing calls leave
  behind, a message whose alloc was recorded or a row whose eval was sent on.
- `PutNewWorker` means to refuse an existing row, but its condition names an attribute `wkr`
  that no row has, while the key is `wrk` (line/worker.go:14, line/worker.go:42-44). The put
  therefore never fails and overwrites, and that is what the model does.
- `GetActivePool` on a disbanded pool wraps a nil error (line/pool.go:98-100) and returns no
  pool and no error, although its comment promises an error. Its callers stop at the nil pool
  before they write anything; the model has them refuse with no effect.

## Assumptions

- Fresh ids are really fresh: worker ids and alloc ids in the machine (each is 20 hexadecimal
  characters of ten random bytes), message ids, and a pool id whose queue never existed before.
- In the machine and in `Timeline`, a worker registers a capacity of at least zero; the handler
  does not check the sign (line/mux.go:118-126), and neither does `Gateway.RegisterWorker`.
- As the queue service documents, creating a queue that exists and deleting one that does not
  both succeed.
- An update expression that reads `cap` fails on a missing row and does not create one.
- The clock never goes back, lease lengths are constant, integers are unbounded.
- On the store, the capacity index is up to date and the clock stands still during a request;
  stale index rows and stale query results are covered by the machine. On the store a call
  that is down wrote nothing; a call that was applied although its reply was lost is covered
  in the machine, by the step followed by a failure of the process.
- A query for expired rows returns one page. A page that leaves out a match counts as a fault
  on the store, so "without faults" includes "the page held every expired row". In the machine
  a sweep may start with any list of rows it has seen.
- API requests in the machine are not gated by the pool's status, so the machine allows more
  runs than the program. The message of a round may also be one that was deleted already, so
  redelivery is covered.
- `sort.Slice` is modelled as an in-place insertion sort with the program's comparator; the
  algorithm of Go's library is not part of this model.
- Queue URLs are modelled by queue names; the constant prefix is dropped.

## Model

| member | source | states |
|---|---|---|
| `Guarantees.NothingLost` | line/handle_release.go:197-230 | In every interleaving with failures after any call: while its pool's queue exists, an accepted evaluation is queued, running or dead-lettered with the dataset and size it was submitted with, or completed |
| `Guarantees.EvaluationKept` | line/handle_schedule.go:169-175 | From its submission on, in every continuation, all messages, allocs and dead letters of an evaluation have its dataset and its size, where a size below 1 counts as 1 from the first attempt on |
| `Content.FaithfulNext` | line/handle_release.go:197-222 | Every step keeps all messages, records and dead letters copies of what their lineage was submitted as |
| `Guarantees.CapacityConserved` | line/handle_release.go:130-149 | In every reachable state of every run: free capacity, live alloc sizes, capacity in the hands of processes and leaked capacity add up to registered capacity plus excess credit; free capacity is never negative, whatever stale candidates schedulers act on |
| `Guarantees.RetriesBounded` | line/handle_release.go:203-223 | With M = max(1, MaxRetry), on every copy of an eval in every run, redelivered or not: queued after 0 to M-1 attempts, running on attempts 1 to M, dead-lettered after exactly M |
| `Guarantees.NeverRecreated` | line/alloc.go:96-114 | A worker or alloc row that is gone never comes back, whatever heartbeats, claims and credits are still under way |
| `Guarantees.RowsAreSound` | line/handle_release.go:187-195 | Every alloc row has a worker that was registered and an eval of size at least 1; the sweeper's guards for incomplete rows never fire |
| `Guarantees.NoticesReachTheirWorker` | line/handle_schedule.go:224-253 | Every message in a worker's queue names an alloc that was recorded before, for that pool and that worker |
| `Guarantees.OneQueuePerAlloc` | line/handle_schedule.go:224-253 | No alloc id is announced in two queues, nor twice with different contents |
| `Guarantees.InvNext` | line/handle_schedule.go:217-261 | The joint invariant of the protocol survives every single call, failure and crash, and history is only added to |
| `Guarantees.Reachable` | line/handle_release.go:152-234 | The joint invariant holds after any list of steps |
| `Integrity.WholeNext` | line/handle_schedule.go:143-177 | Every step keeps all references sound (rows, records, messages, process states) and forgets no history |
| `Ledger.AccountedNext` | line/handle_release.go:137-149 | Every step keeps the capacity equation of every existing worker |
| `Ledger.GivenUpBalance` | line/handle_schedule.go:218-228 | A process that gives up between claim and record, or between delete and credit, leaks exactly what it held |
| `Lineage.KeptNext` | line/handle_release.go:197-230 | Every step keeps a token of the highest rank of each lineage alive, or ends the lineage: an eval is sent on before its alloc is deleted |
| `Lineage.PutOutranksMessage` | line/handle_schedule.go:169-175 | Once an alloc was recorded from a message, that message is no longer the highest-ranked token of its lineage, so deleting it loses nothing |
| `Oversubscription.LoadBound` | line/handle_schedule.go:151-161 | Live alloc sizes on a worker never exceed its registered capacity plus the excess credit it got |
| `Oversubscription.ExcessExactly` | line/handle_release.go:130-144 | A worker has no excess credit if and only if no credit was applied to it for a delete that removed nothing |
| `Oversubscription.BooksBalanceExactly` | line/handle_release.go:112-149 | Free, allocated, held and leaked capacity, counting only capacity that really left a row or a worker, add up to the registered capacity if and only if no credit was applied for a delete that removed nothing |
| `Oversubscription.ExclusiveNeverOversubscribed` | line/handle_release.go:112-149 | If no release starts on an alloc that is gone or in another release's hands, live alloc sizes never exceed registered capacity, in any run |
| `Oversubscription.GuardedNeverOversubscribed` | line/handle_release.go:130-144 | If a worker is credited only when the delete removed the row, no run oversubscribes it, overlapping releases included |
| `Oversubscription.QuiescentExactly` | line/mux.go:267-283 | If nobody ever gave up holding capacity and nobody holds any, free plus allocated capacity equals registered capacity if and only if no credit was applied for a delete that removed nothing |
| `Oversubscription.QuiescentExact` | line/mux.go:267-283 | Without overlapping releases and without giving up, once nobody holds capacity, free plus allocated capacity is exactly what was registered |
| `Oversubscription.OverlapCreditsTwice` | line/mux.go:267-283 | From any good state, two completions of one live alloc can free its capacity twice |
| `Oversubscription.OversubscriptionHappens` | line/handle_release.go:130-144 | For any configuration, worker and lease there is a run of the program, from the creation of the pool and the worker with their queues on, in which the worker carries more than it registered |
| `Exposure.OverloadExactly` | line/handle_release.go:130-149 | In every reachable state, for every worker whose pool takes evaluations: some continuation without further over-credit, with query results of any age, oversubscribes it if and only if its excess credit exceeds its leaked capacity |
| `Exposure.NoMarginNoOverload` | line/handle_schedule.go:151-161 | With no more excess credit than leaked capacity, no continuation without further over-credit oversubscribes the worker, whether or not its pool takes evaluations |
| `Exposure.FinishAll` | line/handle_schedule.go:163-228 | From any good state whoever holds capacity of a worker can finish, without changing its pool queue or its margin |
| `Redelivery.PlacedWithoutBound` | line/handle_schedule.go:217-261 | For every configuration, worker and lease and any number of distinct alloc ids there is a run in which the one accepted evaluation has a live alloc under each of them at once while its message is still queued |
| `Store.Store.PutNewPool` | line/pool.go:32-53 | Adds the row if there is none, refuses otherwise, changes nothing else |
| `Store.Store.UpdatePoolTTL` | line/pool.go:56-89 | Sets the ttl of an existing pool row only |
| `Store.Store.GetPool` | line/pool.go:106-131 | Returns the stored row, or refuses if there is none |
| `Store.Store.GetActivePool` | line/pool.go:92-103 | Succeeds exactly on pools that exist and whose ttl is not positive |
| `Store.Store.PutNewWorker` | line/worker.go:34-57 | Writes the row and never refuses, because the condition names an attribute no row has |
| `Store.Store.DeleteWorker` | line/worker.go:60-83 | Removes the row, and succeeds only if there was one |
| `Store.Store.UpdateWorkerTTL` | line/worker.go:86-119 | Sets the ttl of an existing worker row; never creates one |
| `Store.Store.ClaimCapacity` | line/handle_schedule.go:151-161 | Lowers capacity by the claim exactly if the row exists and has that much |
| `Store.Store.CreditCapacity` | line/handle_release.go:137-147 | Raises capacity of an existing row; refuses on a missing one and creates none |
| `Store.Store.PutNewAlloc` | line/alloc.go:62-82 | Adds the row if its id is not taken, refuses otherwise |
| `Store.Store.UpdateAllocTTL` | line/alloc.go:85-117 | Sets the ttl of an existing alloc row; never creates one |
| `Store.Store.GetAlloc` | line/alloc.go:34-59 | Returns the stored row, or refuses if there is none |
| `Store.Store.DeleteAlloc` | line/handle_release.go:130-135 | Removes the row and succeeds even if there is none |
| `Store.Store.PutReplica` | line/replica.go:23-37 | Writes the row, overwriting an older one |
| `Store.Store.DeleteReplica` | line/replica.go:40-54 | Removes the row if there is one |
| `Store.Store.SendEval` | line/handle_release.go:211-222 | Adds one copy of the eval to an existing queue; refuses if the queue is gone |
| `Store.Store.SendDeadLetter` | line/handle_release.go:204-209 | Adds one copy of the eval to the dead-letter queue |
| `Store.Store.ReceiveEval` | line/handle_schedule.go:184-196 | Returns some waiting eval and leaves it in the queue |
| `Store.Store.DeleteEval` | line/handle_schedule.go:255-261 | Removes one copy of the eval from the queue |
| `Store.Store.SendNotice` | line/handle_schedule.go:247-253 | Adds one notice to an existing worker queue; refuses if the queue is gone |
| `Store.Store.QueryExpiredAllocs` | line/handle_release.go:161-176 | Lists, without repetition and in any order, allocs of the pool with ttl below now; all of them without a fault |
| `Store.Store.QueryExpiredReplicas` | line/handle_release.go:26-41 | Lists, without repetition and in any order, replicas of the pool with ttl below now; all of them without a fault |
| `Store.Store.QueryExpiredWorkers` | line/handle_release.go:70-85 | Lists, without repetition and in any order, workers of the pool with ttl below now; all of them without a fault |
| `Sweeper.ReleaseAlloc` | line/handle_release.go:112-150 | Deletes the row, then credits the worker the alloc's size; says which of the two got through, whatever fails, and when the request reports success |
| `Sweeper.ExpelAlloc` | line/handle_release.go:197-230 | One item of the loop: dead-letter an eval with MaxRetry attempts or more, requeue any other, drop it if the queue is gone, and only then release; if sending fails nothing changed |
| `Sweeper.ReleasePage` | line/handle_release.go:179-231 | Whatever the order of the page: the state is exactly that of sweeping the items it got to, and all complete items without faults |
| `Sweeper.ReleaseAllocs` | line/handle_release.go:152-234 | Without faults exactly the sound allocs with ttl below now vanish, each surviving worker gains the sum of its expired sizes, the queue gains the multiset of unspent evals and the dead-letter queue the rest; with faults a part of that in which deletes follow sends and credits follow deletes |
| `Sweeper.ReleaseReplicas` | line/handle_release.go:17-59 | Exactly the expired replica rows vanish; with faults some of them |
| `Sweeper.ReleaseWorkers` | line/handle_release.go:61-110 | Exactly the expired worker rows and their queues vanish; with faults a row goes only after its queue |
| `Sweeper.SweepPool` | line/handle_release.go:251-270 | One pool: allocs, replicas, workers in that order, each only if the part before returned no error; part of the pool's work, all of it without faults |
| `Sweeper.HandleRelease` | line/handle_release.go:237-279 | The whole sweep: the state is that of a part of the work in which only rows are gone whose lease is over; without faults, table by table, exactly the expired rows are gone, each worker that stays gained the sum of its expired sizes, each queue the multiset of its unspent evals, the dead-letter queue the rest, and the queues of removed workers are gone, independent of the order of pools and rows |
| `Sweeping.SweepsCompose` | line/handle_release.go:243-271 | Two disjoint parts of a sweep one after the other have the effect of both at once, so order does not matter |
| `Sweeping.SweepOne` | line/handle_release.go:197-230 | Sweeping a single alloc, call by call, is the closed-form sweep of that one row |
| `Sweeping.OneMoreAlloc` | line/handle_release.go:179-231 | One more alloc after a part of a sweep is the sweep of that part with the alloc added |
| `Sweeping.SweepCapacity` | line/handle_release.go:137-147 | After a full sweep every worker that stays has its old capacity plus the sum of the sizes of its expired allocs, and is else unchanged |
| `Sweeping.SweepMail` | line/handle_release.go:202-223 | After a full sweep each queue has gained the multiset of the expired evals of its pools with fewer than MaxRetry attempts and the dead-letter queue the rest |
| `Sweeping.PartRows` | line/handle_release.go:243-271 | However far a sweep got, only rows whose lease is over are gone, and no row is new |
| `Scheduler.QueryCapacity` | line/handle_schedule.go:90-107 | Returns ten fitting rows of least capacity, or all, in ascending order of capacity |
| `Scheduler.FindReplicas` | line/handle_schedule.go:22-72 | Returns the unexpired rows among the first ten, in key order, whose id begins with the dataset; nothing for the empty dataset |
| `Scheduler.Insert` | line/handle_schedule.go:128-130 | Sinking one element with the non-strict comparator ends, keeps the elements and sorts one more |
| `Scheduler.SortSpread` | line/handle_schedule.go:126-130 | The in-place sort gives a descending permutation, although the comparator holds of equal elements |
| `Scheduler.Choose` | line/handle_schedule.go:109-144 | Picks an unexpired row of the page with the most capacity; none exactly if all are expired |
| `Scheduler.Schedule` | line/handle_schedule.go:75-178 | Claims the eval's size on an unexpired worker of the pool that has it, and prepares the alloc with one more attempt; with at most ten workers that have the room, it refuses exactly if all of them are expired, and otherwise takes one with the most capacity; says what is claimed even if a call fails |
| `Scheduler.Deliver` | line/handle_schedule.go:224-261 | Record, tell, delete in that order: for each way to end, failures included, the exact state left behind |
| `Scheduler.PlaceEval` | line/handle_schedule.go:203-261 | A received message normalised, placed and delivered: how it ended, by which page and choice, and the exact state left behind |
| `Scheduler.ReceiveRound` | line/handle_schedule.go:181-264 | One round of the receive loop ends in one of nine ways; row by row: the claim of the size, at least 1, on a worker chosen as by Schedule; the alloc with a full lease, the dataset, the size and one more attempt; the notice; and the message, which only a delivered round takes off the queue |
| `Scheduler.PoolsToServe` | line/handle_schedule.go:273-288 | Exactly the pools whose ttl is not positive are served |
| `Readers.PageSpelledOut` | line/handle_schedule.go:90-107 | A page has at most ten workers of the pool with the room, as they are stored, and any other such worker has at least as much capacity as all ten |
| `Gateway.CreatePool` | line/mux.go:51-87 | Creates the queue, then an unmarked row that names it; success exactly on a new id without faults; without success the state is unchanged or has the queue alone |
| `Gateway.RegisterWorker` | line/mux.go:92-141 | In an existing pool whose ttl is not positive, stores the worker with the capacity it asked for, its queue and a full lease, and the queue exists; without success the state is unchanged or has the queue alone; in any other pool nothing changes |
| `Gateway.DisbandPool` | line/mux.go:146-167 | Deletes the pool's queue, then sets the ttl of its row to now plus the pool lease; without success the state is unchanged or has lost the queue alone |
| `Gateway.RenewWorker` | line/mux.go:179-190 | Renews the lease of an existing worker of an active pool, or changes nothing; without faults it does so for all of them |
| `Gateway.ScheduleEval` | line/mux.go:225-250 | Queues exactly one eval with the dataset and size asked for and no attempts, without faults exactly if the pool exists, its ttl is not positive and it has a queue; else changes nothing |
| `Gateway.CompleteAlloc` | line/mux.go:255-286 | Without faults, for an existing alloc of an active pool, removes exactly that row and gives its size back to its worker alone; with faults nothing, or the deletion alone, or both; nothing if the pool is not active or the alloc is missing |
| `Gateway.PutReplicas` | line/mux.go:192-205 | Renews a replica for each dataset of a prefix of the list and touches no other; the prefix is the whole list exactly on success |
| `Gateway.RenewAllocs` | line/mux.go:207-217 | For any list, repetitions included: renews exactly the allocs of a prefix of the list; without faults the prefix ends at the first missing alloc; it is the whole list exactly on success |
| `Gateway.SendHeartbeat` | line/mux.go:172-220 | Does nothing, or gives a full lease to the worker, to a prefix of the datasets and, once all are done, to a prefix of the allocs, each by its index in the list, and changes nothing else; without faults it acts exactly on existing workers of pools whose ttl is not positive and ends at the first missing alloc; success exactly when all is renewed |
| `Gateway.BeatenDid` | line/mux.go:184-217 | The closed form of a heartbeat gives a full lease to the worker, the first n datasets and the first m allocs of the lists |
| `Gateway.WholeBeat` | line/mux.go:172-220 | A heartbeat that got as far as it does without faults has the effect of a whole heartbeat |
| `Gateway.OnlyLeases` | line/mux.go:184-217 | However far it got, a heartbeat keeps all rows, changes only ttls, and only of its worker, the listed datasets on it and the listed allocs of its pool; it only adds replicas |
| `Gateway.AllPresent` | line/mux.go:207-217 | The whole list is renewed if and only if every listed alloc exists |
| `Timeline.DeliveredIsPlace` | line/handle_schedule.go:217-261 | A delivered round of the scheduler is a placement event of the timeline, on an unexpired worker with the room |
| `Timeline.UndeliveredIsKeep` | line/handle_schedule.go:224-261 | A round that records an alloc and leaves its message queued is an event of the timeline too |
| `Timeline.EveryRoundIsEvent` | line/handle_schedule.go:181-264 | However a round of the receive loop ends, what it leaves behind is the effect of an event of the timeline |
| `Timeline.SaneAfter` | line/handle_schedule.go:170-175 | After any run, whatever failed in it, no row's ttl is further away than its lease length, every alloc row is complete and its pool exists, and every replica id has a dataset and a worker part |
| `Timeline.WellFormedAfter` | line/mux.go:193-205 | After any run, whatever failed in it, every replica id has a dataset part and a worker part |
| `Timeline.AllocStep` | line/alloc.go:85-117 | What one event, whole or cut short, does to one alloc row: renewed exactly as `Renews` says and then of an active pool with a fresh lease, or unchanged |
| `Timeline.LeaseAfter` | line/handle_schedule.go:170-175 | After any run, whatever failed in it, an alloc's ttl is its last renewal (its creation, or the last heartbeat of the run that reached it) plus the lease length |
| `Timeline.LeaseExact` | line/handle_release.go:161-173 | After any run, whatever failed in it, a sweep without failing calls takes an alloc back if and only if its last renewal is more than the lease length ago |
| `Timeline.HeartbeatKeeps` | line/mux.go:207-217 | After any history: an alloc that a heartbeat lists before the first missing one is not taken back by any sweep up to a full lease later, whatever else happens or fails, unless it is completed |
| `Timeline.PoolWorks` | line/pool.go:92-103 | After any history a new pool, until it is disbanded and whatever else happens or fails, queues each submitted evaluation once with its dataset and size and stores each worker with the capacity it registers and a full lease |
| `Timeline.ClosingAfter` | line/pool.go:92-103 | Whatever happens or fails after a pool is disbanded, it stays disbanded and no row of it outlives that time by more than a lease |
| `Timeline.PoolDrains` | line/mux.go:146-167 | A sweep without failing calls, later than the disbanding plus the longest lease, leaves the pool without allocs, replicas and workers for ever after, whatever happened or failed before, in between and later |
| `Effort.ExpiriesCost` | line/handle_release.go:203-226 | Sending the evals of n allocs on lowers the outstanding work by n steps, except that every row that stays is one evaluation's worth of work more at most |
| `Effort.EventCosts` | line/handle_schedule.go:169-175 | Every event, whole or cut short, lowers the outstanding work by the steps it takes; only accepted evaluations and copies left behind by failing calls raise it, by 2 * max(1, MaxRetry) each |
| `Effort.WorkIsBounded` | line/handle_release.go:203-226 | The scheduling, expiry and completion steps of any run, whatever fails in it, are at most 2 * max(1, MaxRetry) for each accepted evaluation and each copy left behind; with exactly-once delivery and no faults that is 2 * max(1, MaxRetry) * n for n evaluations |
| `Effort.CopiesAreSteps` | line/handle_release.go:203-226 | Every copy left behind is made by a step, so a run has at least as many steps as copies |
| `Effort.BoundedExactly` | line/handle_schedule.go:217-261 | The work of runs with at most n accepted evaluations is bounded if and only if the number of copies left behind is |
| `Spread.ClaimKeepsEven` | line/handle_schedule.go:126-161 | A claim of the program's choice keeps differences in free capacity within any bound not below the claim |
| `Spread.SpreadBound` | line/handle_schedule.go:126-161 | Over any run of claims the largest difference never exceeds the initial one or the largest claim |
| `Readers.SweepHelpsFindReplicas` | line/handle_schedule.go:55-68 | What FindReplicas returns before expired replicas are removed is a prefix of what it returns after |
| `Readers.SweepHelpsScheduler` | line/handle_schedule.go:92-144 | For any page of the index before expired workers are removed and any page after, the chosen capacity does not shrink, however ties are ordered; a choice before means a choice after |
| `Readers.CandidatesGrow` | line/handle_schedule.go:92-124 | With the surviving rows in the same order, the candidates before expired workers are removed are a prefix of those after |
| `Readers.PageOfChosen` | line/handle_schedule.go:36-68 | Filtering a page gives a prefix of the page of the filtered rows |
| `Readers.FoundRanked` | line/handle_schedule.go:33-68 | A row is found if and only if the dataset id is not empty and the row is stored and unexpired, begins with the id, and has fewer than ten matches before it in key order |
| `Readers.FoundExactly` | line/handle_schedule.go:33-68 | With at most ten matches, a row is found if and only if the dataset id is not empty and the row is stored, begins with the id and is unexpired |
| `Readers.FindsEveryReplica` | line/handle_schedule.go:33-68 | With at most ten matches, every unexpired replica of the dataset is found, if and only if its id is not empty |
| `Readers.FindsExactly` | line/handle_schedule.go:33-68 | For every table of replicas and every dataset id, the empty one included: exactly the unexpired replicas of the dataset are returned if and only if, of the unexpired rows, its own are all shown and those it can be confused with are not; a row is shown if the id is not empty and fewer than ten matches come before it; it can be confused with the dataset if its own dataset id starts with it, or if its own dataset id and a colon are a prefix of it with the rest a prefix of the worker id |
| `Readers.FindsExactlyOnOnePage` | line/handle_schedule.go:33-68 | With at most ten matches that is so if and only if no unexpired row of another dataset in the pool can be confused with it; for the empty id, if and only if there is no unexpired replica of it |
| `Readers.PrefixConfusion` | line/handle_schedule.go:39 | A concrete table in which dataset d1 finds a replica of d10 |
| `Readers.ColonConfusion` | line/handle_schedule.go:39 | A concrete table in which dataset d:0 finds the replica of d on a worker whose id starts with 0 |
| `Readers.EmptyIdMissed` | line/handle_schedule.go:35 | A concrete replica of the empty dataset id, as a heartbeat may write it, that is not returned |
| `Readers.OneReplicaPerWorker` | README.md:8 | Two replica rows of a pool coincide exactly if dataset and worker do, so there is at most one replica of a dataset per node; the id decodes to its dataset |
| `Readers.ChoiceIsBest` | line/handle_schedule.go:92-144 | If at most ten workers of the pool have at least the size as capacity, the choice is an unexpired one of them with the most capacity, and there is none exactly if all of them are expired |
| `Readers.BelowExactly` | line/handle_schedule.go:36-39 | The key order of a query: a string comes first if the other continues it, or if its character is smaller at the first difference |
| `Names.LastColonOf` | line/mux.go:20-22 | The last colon of a replica id is the separator, for colon-free worker ids |
| `Names.ReplicaIDDecodes` | line/mux.go:20-22 | Replica ids determine dataset and worker, even if dataset ids hold colons |
| `Names.WorkerQueueDecodes` | line/mux.go:25-27 | Two workers never share a queue name |
| `Names.PoolQueueDecodes` | line/mux.go:30-32 | Two pools never share a queue name |
| `Names.QueueKindsDiffer` | line/mux.go:24-32 | A pool's queue is never a worker's queue |
| `Bridge.SweepRefines` | line/handle_release.go:152-234 | From any reachable state, a sweeper left alone for a whole page changes tables and queues exactly as the closed form of a sweep says for the set of its items, in any order, with or without their workers |
| `Bridge.RoundRefines` | line/handle_schedule.go:193-262 | From any reachable state, a scheduler left alone for one round changes tables and queues as a delivered round at request level |
| `Bridge.CompleteRefines` | line/mux.go:267-283 | From any reachable state, a completion left alone changes tables and queues as the request does |
| `Bridge.SubmitRefines` | line/mux.go:225-250 | From any reachable state, the machine's step for an evaluation request changes tables and queues as the request does |
| `Bridge.RegisterRefines` | line/mux.go:104-131 | From any reachable state, the machine's steps for the registration of a new worker in an active pool change tables and queues as the request does |
| `Bridge.CreateRefines` | line/mux.go:64-80 | From any reachable state, the machine's step for a new pool changes tables and queues as the request does |
| `Bridge.DisbandRefines` | line/mux.go:153-164 | From any reachable state, the machine's step for disbanding changes tables and queues as the request does |
| `Bridge.BeatRefines` | line/mux.go:184-217 | From any reachable state, the machine's steps for a heartbeat of an existing worker with existing allocs change tables and queues as the request does |
| `Bridge.DropRefines` | line/handle_release.go:96-107 | From any reachable state, the machine's steps for the removal of a worker change tables and queues as the sweep does |
| `Bridge.ItemRefines` | line/handle_release.go:179-231 | A sweeper of the machine left alone for one item changes workers, allocs, queued evals, dead letters and notices as the request-level sweep of that alloc |

## Left out

- Capacity lost to crashes and failed calls is never recovered by the program; the ledger has it as leaked, and no theorem bounds it.
- `Timeline` and `Effort` have no delivery of a message that was already deleted, and their requests are atomic; what holds in spite of that is in `Guarantees`. A call there that was applied although its reply was lost is the event that ends after that call.
- Claims that end without an alloc are no steps of `Effort`; each takes capacity from a worker for good.
- When a worker's pool no longer takes evaluations, whether it can still be oversubscribed also depends on the messages under way; there only one direction is stated (`Exposure.NoMarginNoOverload`).
- The bridge does not compare replica rows and pool rows, which the machine does not have.
- Spread is bounded for an up-to-date index, unexpired workers and at most ten workers that fit; otherwise the ten rows of least capacity say nothing about the larger workers.
- Locality: `Schedule` takes the replicas and has an empty branch for them (line/handle_schedule.go:132-136), so replicas never influence the choice and no claim is made that they do.
- Message retention, visibility timeouts, delays in reusing queue names and collisions of random ids.
- Queries beyond one page, and the scan of the pool table page by page.
- `GetWorker` (line/worker.go:122-147), which nothing in the protocol calls.
- At-most-once delivery: the program delivers at least once by design.
- Marshalling to and from the database and queue formats, error wrapping, logging, configuration and Lambda dispatch.
- HTTP routing, JSON coding and the gateway (line/handle_gateway.go), which share no state with the protocol.
- The HTTP client (line/client) and the older worker in work/main.go.
