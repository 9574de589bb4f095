/** The whole stored state as one value, and the effect of each request or sweep on it,
    stated for all rows at once. The handlers on the store are proved against these. */
module Tables {
  import opened Types
  import opened Names
  import opened Sums

  datatype Db = Db(
    pools: map<string, Pool>,
    workers: map<WorkerPK, Worker>,
    allocs: map<AllocPK, Alloc>,
    replicas: map<ReplicaPK, int>,              // each with its ttl
    evals: map<string, multiset<Eval>>,         // by pool queue
    notices: map<string, multiset<Notice>>,     // by worker queue
    dead: multiset<Eval>)

  predicate Active(db: Db, pool: string) {
    pool in db.pools && !Disbanded(db.pools[pool])
  }

  // Sweeping.

  /** The allocs of a pool that a sweep at `now` has to release. */
  function Due(allocs: map<AllocPK, Alloc>, pools: set<string>, now: int): set<AllocPK> {
    set k | k in allocs && k.pool in pools && allocs[k].ttl < now && Sound(allocs[k])
  }

  function StaleReplicas(replicas: map<ReplicaPK, int>, pools: set<string>, now: int): set<ReplicaPK> {
    set r | r in replicas && r.pool in pools && replicas[r] < now
  }

  function StaleWorkers(workers: map<WorkerPK, Worker>, pools: set<string>, now: int): set<WorkerPK> {
    set w | w in workers && w.pool in pools && workers[w].ttl < now
  }

  /** What a sweep got done, row by row: evals sent on, alloc rows deleted, capacity
      credited, replica rows deleted, worker queues deleted, worker rows deleted. */
  datatype Swept = Swept(sent: set<AllocPK>, removed: set<AllocPK>, credited: set<AllocPK>,
                         replicas: set<ReplicaPK>, queues: set<WorkerPK>, workers: set<WorkerPK>)

  const NOTHING_SWEPT := Swept({}, {}, {}, {}, {}, {})

  function Both(a: Swept, b: Swept): Swept {
    Swept(a.sent + b.sent, a.removed + b.removed, a.credited + b.credited,
          a.replicas + b.replicas, a.queues + b.queues, a.workers + b.workers)
  }

  /** Everything a sweep of these pools has to do at `now`. */
  function Work(db: Db, pools: set<string>, now: int): Swept {
    var due, stale := Due(db.allocs, pools, now), StaleWorkers(db.workers, pools, now);
    Swept(due, due, due, StaleReplicas(db.replicas, pools, now), stale, stale)
  }

  /** A part of the work that can be left by failing calls: an alloc is only deleted once
      its eval was sent on, only credited once deleted, and so on. */
  predicate PartOf(done: Swept, work: Swept) {
    && done.credited <= done.removed <= done.sent <= work.sent
    && done.replicas <= work.replicas
    && done.workers <= done.queues <= work.queues
  }

  function SizesOn(allocs: map<AllocPK, Alloc>, ks: set<AllocPK>, w: WorkerPK): map<AllocPK, int> {
    map k | k in ks && k in allocs && Host(k, allocs[k]) == w :: SizeOf(allocs[k])
  }

  /** Evals that go back to queue `q`. */
  function Requeued(conf: Conf, db: Db, ks: set<AllocPK>, q: string): map<AllocPK, Eval> {
    map k | k in ks && k in db.allocs && db.allocs[k].eval.Some? && !Spent(conf, db.allocs[k].eval.value)
            && k.pool in db.pools && db.pools[k.pool].queue == q :: db.allocs[k].eval.value
  }

  function DeadLetters(conf: Conf, db: Db, ks: set<AllocPK>): map<AllocPK, Eval> {
    map k | k in ks && k in db.allocs && db.allocs[k].eval.Some? && Spent(conf, db.allocs[k].eval.value)
      :: db.allocs[k].eval.value
  }

  function QueuesOf(conf: Conf, ws: set<WorkerPK>): set<string> {
    set w | w in ws :: WorkerQueue(conf, w)
  }

  ghost function WorkersAfter(db: Db, credited: set<AllocPK>, gone: set<WorkerPK>): map<WorkerPK, Worker> {
    map w | w in db.workers && w !in gone ::
      db.workers[w].(capacity := db.workers[w].capacity + Total(SizesOn(db.allocs, credited, w)))
  }

  ghost function EvalsAfter(conf: Conf, db: Db, sent: set<AllocPK>): map<string, multiset<Eval>> {
    map q | q in db.evals :: db.evals[q] + Bag(Requeued(conf, db, sent, q))
  }

  /** The effect of a (possibly partial) sweep: which rows are gone, what each surviving
      worker gained, what each surviving queue gained. No order is involved. */
  ghost function AfterSweep(conf: Conf, db: Db, done: Swept): Db {
    Db(db.pools,
       WorkersAfter(db, done.credited, done.workers),
       db.allocs - done.removed,
       db.replicas - done.replicas,
       EvalsAfter(conf, db, done.sent),
       db.notices - QueuesOf(conf, done.queues),
       db.dead + Bag(DeadLetters(conf, db, done.sent)))
  }

  ghost function FullSweep(conf: Conf, db: Db, now: int): Db {
    AfterSweep(conf, db, Work(db, db.pools.Keys, now))
  }

  // Requests.

  /** Each request has its queue call first; the effect of that alone is named too. */
  function WithPoolQueue(conf: Conf, db: Db, id: string): Db {
    var queue := PoolQueue(conf, id);
    db.(evals := if queue in db.evals then db.evals else db.evals[queue := multiset{}])
  }

  function CreatedPool(conf: Conf, db: Db, id: string): Db {
    var queued := WithPoolQueue(conf, db, id);
    if id in db.pools then queued else queued.(pools := db.pools[id := Pool(PoolQueue(conf, id), 0)])
  }

  function WithWorkerQueue(conf: Conf, db: Db, w: WorkerPK): Db {
    var queue := WorkerQueue(conf, w);
    db.(notices := if queue in db.notices then db.notices else db.notices[queue := multiset{}])
  }

  function Registered(conf: Conf, db: Db, now: int, w: WorkerPK, capacity: int): Db {
    if !Active(db, w.pool) then db
    else WithWorkerQueue(conf, db, w).(
           workers := db.workers[w := Worker(capacity, WorkerQueue(conf, w), now + conf.workerTTL)])
  }

  function WithoutPoolQueue(conf: Conf, db: Db, id: string): Db {
    db.(evals := db.evals - {PoolQueue(conf, id)})
  }

  function DisbandedPool(conf: Conf, db: Db, now: int, id: string): Db {
    var closed := WithoutPoolQueue(conf, db, id);
    if id in db.pools then closed.(pools := db.pools[id := db.pools[id].(ttl := now + conf.poolTTL)]) else closed
  }

  /** How many allocs of the list exist before the first that does not. */
  function Present(allocs: map<AllocPK, Alloc>, pool: string, ids: seq<string>): (n: nat)
    ensures n <= |ids|
    ensures forall i | 0 <= i < n :: AllocPK(pool, ids[i]) in allocs
    ensures n < |ids| ==> AllocPK(pool, ids[n]) !in allocs
  {
    if ids == [] || AllocPK(pool, ids[0]) !in allocs then 0 else 1 + Present(allocs, pool, ids[1..])
  }

  /** How far a heartbeat got: `n` datasets and `m` allocs, all datasets before any alloc. */
  predicate GotTo(allocs: map<AllocPK, Alloc>, w: WorkerPK, datasets: seq<string>, ids: seq<string>, n: nat, m: nat) {
    n <= |datasets| && m <= Present(allocs, w.pool, ids) && (m > 0 ==> n == |datasets|)
  }

  predicate Beats(db: Db, w: WorkerPK) {
    Active(db, w.pool) && w in db.workers
  }

  function Renewed(allocs: map<AllocPK, Alloc>, ks: set<AllocPK>, ttl: int): map<AllocPK, Alloc> {
    map k | k in allocs :: if k in ks then allocs[k].(ttl := ttl) else allocs[k]
  }

  function Claims(pool: string, ids: seq<string>): set<AllocPK> {
    set id | id in ids :: AllocPK(pool, id)
  }

  function Copies(w: WorkerPK, datasets: seq<string>): set<ReplicaPK> {
    set d | d in datasets :: ReplicaPK(w.pool, ReplicaID(d, w.worker))
  }

  function Copied(replicas: map<ReplicaPK, int>, w: WorkerPK, datasets: seq<string>, ttl: int): map<ReplicaPK, int> {
    replicas + (map r | r in Copies(w, datasets) :: ttl)
  }

  /** The worker is renewed, a replica for each of these datasets, and these allocs. */
  function Beaten(conf: Conf, db: Db, now: int, w: WorkerPK, datasets: seq<string>, ids: seq<string>): Db
    requires w in db.workers
  {
    db.(workers := db.workers[w := db.workers[w].(ttl := now + conf.workerTTL)],
        replicas := Copied(db.replicas, w, datasets, now + conf.replicaTTL),
        allocs := Renewed(db.allocs, Claims(w.pool, ids), now + conf.allocTTL))
  }

  /** A heartbeat renews the worker, a replica for each listed dataset, and the listed
      allocs up to the first one that does not exist. */
  function Heartbeat(conf: Conf, db: Db, now: int, w: WorkerPK, datasets: seq<string>, ids: seq<string>): Db {
    if !Beats(db, w) then db else Beaten(conf, db, now, w, datasets, ids[..Present(db.allocs, w.pool, ids)])
  }

  function Submitted(db: Db, pool: string, eval: Eval): Db {
    if !Active(db, pool) || db.pools[pool].queue !in db.evals then db
    else
      var q := db.pools[pool].queue;
      db.(evals := db.evals[q := db.evals[q] + multiset{eval}])
  }

  /** A row without an eval makes the request panic before it writes anything. */
  predicate Completable(db: Db, k: AllocPK) {
    Active(db, k.pool) && k in db.allocs && db.allocs[k].eval.Some?
  }

  function Credited(workers: map<WorkerPK, Worker>, w: WorkerPK, n: int): map<WorkerPK, Worker> {
    if w in workers then workers[w := workers[w].(capacity := workers[w].capacity + n)] else workers
  }

  function Completed(db: Db, k: AllocPK): Db {
    if !Completable(db, k) then db
    else db.(allocs := db.allocs - {k},
             workers := Credited(db.workers, Host(k, db.allocs[k]), SizeOf(db.allocs[k])))
  }

  // Scheduling one message.

  predicate Placeable(db: Db, queue: string, msg: Eval, w: WorkerPK, k: AllocPK) {
    && queue in db.evals && msg in db.evals[queue]
    && w in db.workers && db.workers[w].capacity >= Normalised(msg).size
    && w.pool == k.pool && k !in db.allocs
  }

  /** Capacity is claimed and the alloc recorded. */
  function Placed(conf: Conf, db: Db, now: int, msg: Eval, w: WorkerPK, k: AllocPK): Db
    requires w in db.workers
  {
    var eval := Normalised(msg);
    db.(workers := Credited(db.workers, w, -eval.size),
        allocs := db.allocs[k := Alloc(now + conf.allocTTL, w.worker, Some(Attempted(eval)))])
  }

  /** The worker is told and the message deleted. */
  function Announced(conf: Conf, db: Db, queue: string, msg: Eval, w: WorkerPK, k: AllocPK): Db
    requires queue in db.evals && WorkerQueue(conf, w) in db.notices
  {
    var q := WorkerQueue(conf, w);
    db.(notices := db.notices[q := db.notices[q] + multiset{Notice(k.pool, k.alloc, w.worker)}],
        evals := db.evals[queue := db.evals[queue] - multiset{msg}])
  }
}
