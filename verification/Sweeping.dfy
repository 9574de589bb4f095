/** How the effect of a sweep is put together from the effects of its calls. */
module Sweeping {
  import opened Types
  import opened Names
  import opened Sums
  import opened Tables

  /** What `b` works on is untouched by `a`. */
  predicate Apart(a: Swept, b: Swept) {
    && a.sent !! b.sent && a.credited !! b.credited
    && a.removed !! b.sent && a.removed !! b.credited
    && a.workers !! b.workers
  }

  lemma SizesTogether(allocs: map<AllocPK, Alloc>, a: set<AllocPK>, b: set<AllocPK>, gone: set<AllocPK>, w: WorkerPK)
    requires a !! b && gone !! b
    ensures Total(SizesOn(allocs, a, w)) + Total(SizesOn(allocs - gone, b, w)) == Total(SizesOn(allocs, a + b, w))
  {
    var x, y := SizesOn(allocs, a, w), SizesOn(allocs, b, w);
    assert SizesOn(allocs - gone, b, w) == y;
    assert SizesOn(allocs, a + b, w) == x + y;
    TotalUnion(x, y);
  }

  lemma RequeuedTogether(conf: Conf, db: Db, db': Db, a: set<AllocPK>, b: set<AllocPK>, gone: set<AllocPK>, q: string)
    requires a !! b && gone !! b && db'.allocs == db.allocs - gone && db'.pools == db.pools
    ensures Bag(Requeued(conf, db, a + b, q)) == Bag(Requeued(conf, db, a, q)) + Bag(Requeued(conf, db', b, q))
  {
    var x, y := Requeued(conf, db, a, q), Requeued(conf, db, b, q);
    assert Requeued(conf, db', b, q) == y;
    assert Requeued(conf, db, a + b, q) == x + y;
    BagUnion(x, y);
  }

  lemma DeadTogether(conf: Conf, db: Db, db': Db, a: set<AllocPK>, b: set<AllocPK>, gone: set<AllocPK>)
    requires a !! b && gone !! b && db'.allocs == db.allocs - gone
    ensures Bag(DeadLetters(conf, db, a + b)) == Bag(DeadLetters(conf, db, a)) + Bag(DeadLetters(conf, db', b))
  {
    var x, y := DeadLetters(conf, db, a), DeadLetters(conf, db, b);
    assert DeadLetters(conf, db', b) == y;
    assert DeadLetters(conf, db, a + b) == x + y;
    BagUnion(x, y);
  }

  lemma WorkersTogether(db: Db, db': Db, a: set<AllocPK>, b: set<AllocPK>, gone: set<AllocPK>, x: set<WorkerPK>,
      y: set<WorkerPK>)
    requires a !! b && gone !! b && db'.allocs == db.allocs - gone && db'.workers == WorkersAfter(db, a, x)
    ensures WorkersAfter(db', b, y) == WorkersAfter(db, a + b, x + y)
  {
    var p, q := WorkersAfter(db', b, y), WorkersAfter(db, a + b, x + y);
    assert p.Keys == q.Keys;
    forall w | w in p ensures p[w] == q[w] {
      SizesTogether(db.allocs, a, b, gone, w);
    }
  }

  lemma QueueTogether(conf: Conf, db: Db, db': Db, a: set<AllocPK>, b: set<AllocPK>, gone: set<AllocPK>, q: string)
    requires a !! b && gone !! b && db'.allocs == db.allocs - gone && db'.pools == db.pools
    requires q in db.evals && db'.evals == EvalsAfter(conf, db, a)
    ensures EvalsAfter(conf, db', b)[q] == EvalsAfter(conf, db, a + b)[q]
  {
    RequeuedTogether(conf, db, db', a, b, gone, q);
    SumAssociates(db.evals[q], Bag(Requeued(conf, db, a, q)), Bag(Requeued(conf, db', b, q)));
  }

  lemma EvalsTogether(conf: Conf, db: Db, db': Db, a: set<AllocPK>, b: set<AllocPK>, gone: set<AllocPK>)
    requires a !! b && gone !! b && db'.allocs == db.allocs - gone
    requires db'.pools == db.pools && db'.evals == EvalsAfter(conf, db, a)
    ensures EvalsAfter(conf, db', b) == EvalsAfter(conf, db, a + b)
  {
    forall q | q in db.evals ensures EvalsAfter(conf, db', b)[q] == EvalsAfter(conf, db, a + b)[q] {
      QueueTogether(conf, db, db', a, b, gone, q);
    }
  }

  lemma DeadSum(conf: Conf, db: Db, db': Db, a: set<AllocPK>, b: set<AllocPK>, gone: set<AllocPK>)
    requires a !! b && gone !! b && db'.allocs == db.allocs - gone
    requires db'.dead == db.dead + Bag(DeadLetters(conf, db, a))
    ensures db'.dead + Bag(DeadLetters(conf, db', b)) == db.dead + Bag(DeadLetters(conf, db, a + b))
  {
    DeadTogether(conf, db, db', a, b, gone);
    SumAssociates(db.dead, Bag(DeadLetters(conf, db, a)), Bag(DeadLetters(conf, db', b)));
  }

  lemma TablesTogether(conf: Conf, db: Db, a: Swept, b: Swept)
    ensures db.allocs - a.removed - b.removed == db.allocs - (a.removed + b.removed)
    ensures db.replicas - a.replicas - b.replicas == db.replicas - (a.replicas + b.replicas)
    ensures db.notices - QueuesOf(conf, a.queues) - QueuesOf(conf, b.queues)
      == db.notices - QueuesOf(conf, a.queues + b.queues)
  {
    assert QueuesOf(conf, a.queues + b.queues) == QueuesOf(conf, a.queues) + QueuesOf(conf, b.queues);
  }

  /** Sweeping in two parts, in either order, is sweeping once. */
  lemma SweepsCompose(conf: Conf, db: Db, a: Swept, b: Swept)
    requires Apart(a, b)
    ensures AfterSweep(conf, AfterSweep(conf, db, a), b) == AfterSweep(conf, db, Both(a, b))
  {
    var db' := AfterSweep(conf, db, a);
    WorkersTogether(db, db', a.credited, b.credited, a.removed, a.workers, b.workers);
    EvalsTogether(conf, db, db', a.sent, b.sent, a.removed);
    DeadSum(conf, db, db', a.sent, b.sent, a.removed);
    TablesTogether(conf, db, a, b);
  }

  lemma NoCredit(db: Db)
    ensures WorkersAfter(db, {}, {}) == db.workers
  {
    forall w | w in db.workers ensures WorkersAfter(db, {}, {})[w] == db.workers[w] {
      assert SizesOn(db.allocs, {}, w) == map[];
    }
  }

  lemma NoMail(conf: Conf, db: Db)
    ensures EvalsAfter(conf, db, {}) == db.evals && Bag(DeadLetters(conf, db, {})) == multiset{}
  {
    forall q | q in db.evals ensures EvalsAfter(conf, db, {})[q] == db.evals[q] {
      assert Requeued(conf, db, {}, q) == map[];
    }
    assert DeadLetters(conf, db, {}) == map[];
  }

  lemma NothingChanges(conf: Conf, db: Db)
    ensures AfterSweep(conf, db, NOTHING_SWEPT) == db
  {
    NoCredit(db);
    NoMail(conf, db);
  }

  // One alloc at a time.

  function EvalsWith(conf: Conf, db: Db, k: AllocPK, eval: Eval): map<string, multiset<Eval>>
    requires k.pool in db.pools
  {
    var q := db.pools[k.pool].queue;
    if !Spent(conf, eval) && q in db.evals then db.evals[q := db.evals[q] + multiset{eval}] else db.evals
  }

  lemma SingleBag<K(!new), V>(k: K, v: V)
    ensures Bag(map[k := v]) == multiset{v}
  {
    var none: map<K, V> := map[];
    BagAdd(none, k, v);
  }

  lemma SendOneTo(conf: Conf, db: Db, k: AllocPK, q: string)
    requires k in db.allocs && db.allocs[k].eval.Some? && k.pool in db.pools && q in db.evals
    ensures EvalsAfter(conf, db, {k})[q] == EvalsWith(conf, db, k, db.allocs[k].eval.value)[q]
  {
    var e := db.allocs[k].eval.value;
    SingleBag(k, e);
    assert Requeued(conf, db, {k}, q) == if !Spent(conf, e) && db.pools[k.pool].queue == q then map[k := e] else map[];
  }

  lemma SendOne(conf: Conf, db: Db, k: AllocPK)
    requires k in db.allocs && db.allocs[k].eval.Some? && k.pool in db.pools
    ensures EvalsAfter(conf, db, {k}) == EvalsWith(conf, db, k, db.allocs[k].eval.value)
  {
    forall q | q in db.evals
      ensures EvalsAfter(conf, db, {k})[q] == EvalsWith(conf, db, k, db.allocs[k].eval.value)[q]
    {
      SendOneTo(conf, db, k, q);
    }
  }

  lemma BuryOne(conf: Conf, db: Db, k: AllocPK)
    requires k in db.allocs && db.allocs[k].eval.Some?
    ensures var e := db.allocs[k].eval.value;
      Bag(DeadLetters(conf, db, {k})) == if Spent(conf, e) then multiset{e} else multiset{}
  {
    var e := db.allocs[k].eval.value;
    SingleBag(k, e);
    assert DeadLetters(conf, db, {k}) == if Spent(conf, e) then map[k := e] else map[];
  }

  lemma CreditOne(db: Db, k: AllocPK)
    requires k in db.allocs
    ensures WorkersAfter(db, {k}, {}) == Credited(db.workers, Host(k, db.allocs[k]), SizeOf(db.allocs[k]))
  {
    var size := SizeOf(db.allocs[k]);
    TotalSet(map[], k, size);
    forall w | w in db.workers
      ensures WorkersAfter(db, {k}, {})[w] == Credited(db.workers, Host(k, db.allocs[k]), size)[w]
    {
      assert SizesOn(db.allocs, {k}, w) == if w == Host(k, db.allocs[k]) then map[k := size] else map[];
    }
  }

  function Once(k: AllocPK, yes: bool): set<AllocPK> {
    if yes then {k} else {}
  }

  /** All there is to do for these allocs. */
  function AllocsOf(ks: set<AllocPK>): Swept {
    NOTHING_SWEPT.(sent := ks, removed := ks, credited := ks)
  }

  function ForOne(k: AllocPK, removed: bool, credited: bool): Swept {
    NOTHING_SWEPT.(sent := {k}, removed := Once(k, removed), credited := Once(k, credited))
  }

  /** What a sweep does for one alloc, call by call. */
  function AfterOne(conf: Conf, db: Db, k: AllocPK, row: Alloc, removed: bool, credited: bool): Db
    requires row.eval.Some? && k.pool in db.pools
  {
    var e := row.eval.value;
    db.(evals := EvalsWith(conf, db, k, e),
        dead := if Spent(conf, e) then db.dead + multiset{e} else db.dead,
        allocs := if removed then db.allocs - {k} else db.allocs,
        workers := if credited then Credited(db.workers, Host(k, row), SizeOf(row)) else db.workers)
  }

  lemma SweepOne(conf: Conf, db: Db, k: AllocPK, removed: bool, credited: bool)
    requires k in db.allocs && db.allocs[k].eval.Some? && k.pool in db.pools
    ensures AfterSweep(conf, db, ForOne(k, removed, credited)) == AfterOne(conf, db, k, db.allocs[k], removed, credited)
  {
    SendOne(conf, db, k);
    BuryOne(conf, db, k);
    NoCredit(db);
    CreditOne(db, k);
    assert db.dead + multiset{} == db.dead && db.allocs - {} == db.allocs && db.replicas - {} == db.replicas;
    assert db.notices - QueuesOf(conf, {}) == db.notices;
  }

  /** Only the calls of releaseAllocs, in their order. */
  predicate AllocsOnly(done: Swept) {
    done.replicas == {} && done.queues == {} && done.workers == {} && done.credited <= done.removed <= done.sent
  }

  lemma OneMoreAlloc(conf: Conf, db: Db, cur: Db, done: Swept, k: AllocPK, row: Alloc, removed: bool, credited: bool)
    requires k in db.allocs && db.allocs[k] == row && Sound(row) && k.pool in db.pools
    requires k !in done.sent && AllocsOnly(done) && cur == AfterSweep(conf, db, done)
    ensures AfterSweep(conf, db, Both(done, ForOne(k, removed, credited)))
      == AfterOne(conf, cur, k, row, removed, credited)
  {
    SweepsCompose(conf, db, done, ForOne(k, removed, credited));
    SweepOne(conf, cur, k, removed, credited);
  }

  // A whole sweep, table by table.

  /** A complete alloc row of a stored pool whose lease is over. */
  predicate Expired(db: Db, now: int, k: AllocPK) {
    k in db.allocs && k.pool in db.pools
    && db.allocs[k].ttl < now && db.allocs[k].worker != "" && db.allocs[k].eval.Some?
  }

  predicate Lapsed(db: Db, now: int, w: WorkerPK) {
    w in db.workers && w.pool in db.pools && db.workers[w].ttl < now
  }

  ghost predicate RowsSwept(db: Db, after: Db, now: int) {
    && after.pools == db.pools
    && after.allocs == (map k | k in db.allocs && !Expired(db, now, k) :: db.allocs[k])
    && after.replicas == (map r | r in db.replicas && !(r.pool in db.pools && db.replicas[r] < now) :: db.replicas[r])
    && (forall w :: w in after.workers <==> w in db.workers && !Lapsed(db, now, w))
  }

  /** Every worker that stays gets back the sizes of its expired allocs and is else unchanged. */
  ghost predicate CapacitySwept(db: Db, after: Db, now: int) {
    forall w | w in after.workers :: w in db.workers
      && after.workers[w].ttl == db.workers[w].ttl && after.workers[w].queue == db.workers[w].queue
      && after.workers[w].capacity == db.workers[w].capacity + Total(
           map k | k in db.allocs && Expired(db, now, k) && k.pool == w.pool && db.allocs[k].worker == w.worker ::
             db.allocs[k].eval.value.size)
  }

  /** Every queue that exists gets the expired evals of its pools with attempts left, the
      dead-letter queue gets the rest, and the queues of the removed workers are gone. */
  ghost predicate MailSwept(conf: Conf, db: Db, after: Db, now: int) {
    && after.evals.Keys == db.evals.Keys
    && (forall q | q in db.evals :: after.evals[q] == db.evals[q] + Bag(
          map k | k in db.allocs && Expired(db, now, k)
                  && db.allocs[k].eval.value.retry < conf.maxRetry && db.pools[k.pool].queue == q ::
            db.allocs[k].eval.value))
    && after.dead == db.dead + Bag(
         map k | k in db.allocs && Expired(db, now, k) && db.allocs[k].eval.value.retry >= conf.maxRetry ::
           db.allocs[k].eval.value)
    && after.notices == db.notices - (
         set w | w in db.workers && Lapsed(db, now, w) :: conf.deployment + "-" + w.pool + "-" + w.worker)
  }

  /** However far a sweep got, only rows whose lease is over are gone, and no row is new. */
  predicate OnlyExpiredGone(db: Db, after: Db, now: int) {
    && after.pools == db.pools
    && (forall k | k in db.allocs && k !in after.allocs :: Expired(db, now, k))
    && (forall k | k in after.allocs :: k in db.allocs && after.allocs[k] == db.allocs[k])
    && (forall w | w in db.workers && w !in after.workers :: Lapsed(db, now, w))
    && (forall w | w in after.workers :: w in db.workers && after.workers[w].ttl == db.workers[w].ttl)
    && (forall r | r in db.replicas && r !in after.replicas :: r.pool in db.pools && db.replicas[r] < now)
    && (forall r | r in after.replicas :: r in db.replicas && after.replicas[r] == db.replicas[r])
  }

  lemma PartRows(conf: Conf, db: Db, done: Swept, now: int)
    requires PartOf(done, Work(db, db.pools.Keys, now))
    ensures OnlyExpiredGone(db, AfterSweep(conf, db, done), now)
  {
  }

  lemma SweepRows(conf: Conf, db: Db, now: int)
    ensures RowsSwept(db, FullSweep(conf, db, now), now)
  {
  }

  lemma SizesExpired(db: Db, now: int, w: WorkerPK)
    ensures SizesOn(db.allocs, Due(db.allocs, db.pools.Keys, now), w)
      == map k | k in db.allocs && Expired(db, now, k) && k.pool == w.pool && db.allocs[k].worker == w.worker ::
           db.allocs[k].eval.value.size
  {
  }

  lemma SweepWorker(conf: Conf, db: Db, now: int, w: WorkerPK)
    requires w in FullSweep(conf, db, now).workers
    ensures w in db.workers
    ensures var due := Due(db.allocs, db.pools.Keys, now);
      FullSweep(conf, db, now).workers[w]
        == db.workers[w].(capacity := db.workers[w].capacity + Total(SizesOn(db.allocs, due, w)))
  {
  }

  lemma SweepCapacity(conf: Conf, db: Db, now: int)
    ensures CapacitySwept(db, FullSweep(conf, db, now), now)
  {
    var t := FullSweep(conf, db, now);
    hide FullSweep, SizesOn, Due;
    forall w | w in t.workers
      ensures w in db.workers && t.workers[w].ttl == db.workers[w].ttl && t.workers[w].queue == db.workers[w].queue
      ensures t.workers[w].capacity == db.workers[w].capacity + Total(
        map k | k in db.allocs && Expired(db, now, k) && k.pool == w.pool && db.allocs[k].worker == w.worker ::
          db.allocs[k].eval.value.size)
    {
      SweepWorker(conf, db, now, w);
      SizesExpired(db, now, w);
    }
  }

  lemma SweepMail(conf: Conf, db: Db, now: int)
    ensures MailSwept(conf, db, FullSweep(conf, db, now), now)
  {
    var due := Due(db.allocs, db.pools.Keys, now);
    forall q | q in db.evals
      ensures Requeued(conf, db, due, q)
        == map k | k in db.allocs && Expired(db, now, k)
                   && db.allocs[k].eval.value.retry < conf.maxRetry && db.pools[k.pool].queue == q ::
             db.allocs[k].eval.value
    {}
    assert DeadLetters(conf, db, due)
      == map k | k in db.allocs && Expired(db, now, k) && db.allocs[k].eval.value.retry >= conf.maxRetry ::
           db.allocs[k].eval.value;
    LapsedQueues(conf, db, now);
  }

  lemma LapsedQueues(conf: Conf, db: Db, now: int)
    ensures QueuesOf(conf, StaleWorkers(db.workers, db.pools.Keys, now))
      == set w | w in db.workers && Lapsed(db, now, w) :: conf.deployment + "-" + w.pool + "-" + w.worker
  {
    var queues := set w | w in db.workers && Lapsed(db, now, w) :: conf.deployment + "-" + w.pool + "-" + w.worker;
    var stale := StaleWorkers(db.workers, db.pools.Keys, now);
    forall q | q in QueuesOf(conf, stale) ensures q in queues {
      var w :| w in stale && WorkerQueue(conf, w) == q;
      assert w in db.workers && Lapsed(db, now, w);
    }
    forall q | q in queues ensures q in QueuesOf(conf, stale) {
      var w :| w in db.workers && Lapsed(db, now, w) && conf.deployment + "-" + w.pool + "-" + w.worker == q;
      assert w in stale && WorkerQueue(conf, w) == q;
    }
  }
}
