/** The periodic sweep: expired allocs go back to their queue and free their capacity,
    expired replicas and workers disappear. */
module Sweeper {
  import opened Types
  import opened Names
  import opened Tables
  import opened Sweeping
  import opened Store

  /** Deletes the row, then credits the worker. True if both calls went through. */
  method ReleaseAlloc(s: Store, k: AllocPK, row: Alloc) returns (ok: bool, ghost removed: bool, ghost credited: bool)
    requires row.eval.Some?
    modifies s
    ensures credited ==> removed
    ensures s.View() == old(s.View()).(
      allocs := if removed then old(s.allocs) - {k} else old(s.allocs),
      workers := if credited then Credited(old(s.workers), Host(k, row), SizeOf(row)) else old(s.workers))
    ensures s.now == old(s.now) && s.faults >= old(s.faults)
    ensures s.faults == old(s.faults) <==> removed && credited
    ensures ok <==> credited && Host(k, row) in old(s.workers)
    ensures var w := WorkerPK(k.pool, row.worker);
      credited && w in old(s.workers) ==>
        s.workers[w] == old(s.workers)[w].(capacity := old(s.workers)[w].capacity + row.eval.value.size)
  {
    removed, credited := false, false;
    var r := s.DeleteAlloc(k);
    if !r.Ok? { return false, false, false; }
    removed := true;
    r := s.CreditCapacity(Host(k, row), row.eval.value.size);
    credited := !r.Down?;
    ok := r.Ok?;
  }

  /** The loop of releaseAllocs for one alloc that passed the checks: send its eval on,
      then release it. False if the eval could not be sent, which ends the loop. */
  method ExpelAlloc(conf: Conf, s: Store, pool: Pool, k: AllocPK, row: Alloc)
    returns (ok: bool, ghost removed: bool, ghost credited: bool)
    requires Sound(row) && k.pool in s.pools && s.pools[k.pool].queue == pool.queue
    modifies s
    ensures s.View() == if ok then AfterOne(conf, old(s.View()), k, row, removed, credited) else old(s.View())
    ensures s.now == old(s.now) && s.faults >= old(s.faults)
    ensures credited ==> removed
    ensures s.faults == old(s.faults) ==> ok && removed && credited
    ensures ok && row.eval.value.retry >= conf.maxRetry ==>
      s.dead == old(s.dead) + multiset{row.eval.value} && s.evals == old(s.evals)
    ensures ok && row.eval.value.retry < conf.maxRetry && pool.queue in old(s.evals) ==>
      s.evals == old(s.evals)[pool.queue := old(s.evals)[pool.queue] + multiset{row.eval.value}]
          && s.dead == old(s.dead)
  {
    var eval := row.eval.value;
    removed, credited := false, false;
    if Spent(conf, eval) {
      var r := s.SendDeadLetter(eval);
      if !r.Ok? { return false, false, false; }
    } else {
      var r := s.SendEval(pool.queue, eval);
      if r.Down? { return false, false, false; }
      // Refused: the pool was disbanded and its queue is gone, so the eval is dropped.
    }
    var released;
    released, removed, credited := ReleaseAlloc(s, k, row);
    ok := true;
  }

  /** How far a sweep of the allocs of `page` got; exactly all of them if nothing failed. */
  predicate Covers(done: Swept, page: set<AllocPK>, faultless: bool) {
    && AllocsOnly(done) && done.sent <= page
    && (faultless ==> done.sent == done.removed == done.credited == page)
  }

  function SoundOnes(rows: map<AllocPK, Alloc>, page: seq<AllocPK>): set<AllocPK> {
    set k | k in page && k in rows && Sound(rows[k])
  }

  method ReleaseAllocs(conf: Conf, s: Store, id: string, pool: Pool) returns (ok: bool, ghost done: Swept)
    requires id in s.pools && s.pools[id].queue == pool.queue
    modifies s
    ensures s.View() == AfterSweep(conf, old(s.View()), done)
    ensures s.now == old(s.now) && s.faults >= old(s.faults)
    ensures Covers(done, Due(old(s.allocs), {id}, s.now), s.faults == old(s.faults))
    ensures s.faults == old(s.faults) ==> ok
  {
    var r, page := s.QueryExpiredAllocs(id);
    ghost var asked := s.faults;
    ghost var due := SoundOnes(s.allocs, page);
    assert due <= Due(s.allocs, {id}, s.now);
    assert s.faults == old(s.faults) ==> due == Due(s.allocs, {id}, s.now);
    ok := false;
    done := NOTHING_SWEPT;
    NothingChanges(conf, s.View());
    if r.Ok? {
      ok, done := ReleasePage(conf, s, id, pool, page);
    }
  }

  /** The allocs of one page, in the order the page has them. */
  method ReleasePage(conf: Conf, s: Store, id: string, pool: Pool, page: seq<AllocPK>)
    returns (ok: bool, ghost done: Swept)
    requires id in s.pools && s.pools[id].queue == pool.queue
    requires forall i | 0 <= i < |page| :: page[i] in s.allocs && page[i].pool == id
    requires forall i, j | 0 <= i < j < |page| :: page[i] != page[j]
    modifies s
    ensures s.View() == AfterSweep(conf, old(s.View()), done)
    ensures s.now == old(s.now) && s.faults >= old(s.faults)
    ensures Covers(done, SoundOnes(old(s.allocs), page), s.faults == old(s.faults))
    ensures s.faults == old(s.faults) ==> ok
  {
    ghost var db := s.View();
    var rows := s.allocs;
    done := NOTHING_SWEPT;
    NothingChanges(conf, db);
    ok := true;
    assert page[..|page|] == page;
    for i := 0 to |page|
      invariant s.View() == AfterSweep(conf, db, done)
      invariant s.now == old(s.now) && s.faults >= old(s.faults) && ok
      invariant Covers(done, SoundOnes(rows, page[..i]), s.faults == old(s.faults))
    {
      var k := page[i];
      var row := rows[k];
      SoundOnesNext(rows, page, i);
      if row.worker == "" { continue; }
      if row.eval.None? { continue; }
      ghost var cur := s.View();
      ghost var removed: bool, credited: bool;
      ok, removed, credited := ExpelAlloc(conf, s, pool, k, row);
      if !ok { break; }
      OneMoreAlloc(conf, db, cur, done, k, row, removed, credited);
      CoversOneMore(done, SoundOnes(rows, page[..i]), k, removed, credited);
      done := Both(done, ForOne(k, removed, credited));
    }
  }

  lemma CoversOneMore(done: Swept, page: set<AllocPK>, k: AllocPK, removed: bool, credited: bool)
    requires Covers(done, page, false) && (credited ==> removed)
    ensures Covers(Both(done, ForOne(k, removed, credited)), page + {k}, false)
    ensures Covers(done, page, true) && removed && credited ==>
      Covers(Both(done, ForOne(k, removed, credited)), page + {k}, true)
  {
  }

  lemma SoundOnesNext(rows: map<AllocPK, Alloc>, page: seq<AllocPK>, i: nat)
    requires i < |page| && page[i] in rows && forall j | 0 <= j < i :: page[j] != page[i]
    ensures page[i] !in SoundOnes(rows, page[..i])
    ensures SoundOnes(rows, page[..i + 1])
         == SoundOnes(rows, page[..i]) + (if Sound(rows[page[i]]) then {page[i]} else {})
  {
    assert page[..i + 1] == page[..i] + [page[i]];
  }

  lemma FewerReplicas(conf: Conf, db: Db, gone: set<ReplicaPK>)
    ensures AfterSweep(conf, db, NOTHING_SWEPT.(replicas := gone)) == db.(replicas := db.replicas - gone)
  {
    NothingChanges(conf, db);
  }

  method ReleaseReplicas(conf: Conf, s: Store, id: string) returns (ok: bool, ghost gone: set<ReplicaPK>)
    modifies s
    ensures s.View() == AfterSweep(conf, old(s.View()), NOTHING_SWEPT.(replicas := gone))
    ensures s.now == old(s.now) && s.faults >= old(s.faults)
    ensures gone <= StaleReplicas(old(s.replicas), {id}, s.now)
    ensures s.faults == old(s.faults) ==> ok && gone == StaleReplicas(old(s.replicas), {id}, s.now)
  {
    gone := {};
    FewerReplicas(conf, s.View(), gone);
    assert s.replicas - {} == s.replicas;
    var r, page := s.QueryExpiredReplicas(id);
    ghost var asked := s.faults;
    if r.Down? { return false, gone; }
    for i := 0 to |page|
      invariant s.View() == old(s.View()).(replicas := old(s.replicas) - gone)
      invariant s.now == old(s.now) && s.faults >= asked
      invariant gone <= set k | k in page[..i]
      invariant s.faults == old(s.faults) ==> gone == set k | k in page[..i]
    {
      assert page[..i + 1] == page[..i] + [page[i]];
      r := s.DeleteReplica(page[i]);
      if r.Ok? {
        assert old(s.replicas) - gone - {page[i]} == old(s.replicas) - (gone + {page[i]});
        gone := gone + {page[i]};
      }
    }
    assert page[..|page|] == page;
    assert s.faults == old(s.faults) ==> gone == StaleReplicas(old(s.replicas), {id}, s.now);
    FewerReplicas(conf, old(s.View()), gone);
    ok := true;
  }

  lemma FewerWorkers(conf: Conf, db: Db, queues: set<WorkerPK>, gone: set<WorkerPK>)
    ensures AfterSweep(conf, db, NOTHING_SWEPT.(queues := queues, workers := gone))
         == db.(workers := db.workers - gone, notices := db.notices - QueuesOf(conf, queues))
  {
    NothingChanges(conf, db);
    forall w | w in db.workers && w !in gone ensures WorkersAfter(db, {}, gone)[w] == WorkersAfter(db, {}, {})[w] {}
    assert WorkersAfter(db, {}, gone) == db.workers - gone;
  }

  /** The workers of one page: first the worker's queue, then its row. */
  method ReleaseWorkerPage(conf: Conf, s: Store, page: seq<WorkerPK>)
    returns (ghost queues: set<WorkerPK>, ghost gone: set<WorkerPK>)
    requires forall i | 0 <= i < |page| :: page[i] in s.workers
    modifies s`workers, s`notices, s`faults
    ensures s.workers == old(s.workers) - gone && s.notices == old(s.notices) - QueuesOf(conf, queues)
    ensures s.faults >= old(s.faults)
    ensures gone <= queues <= set k | k in page
    ensures s.faults == old(s.faults) ==> gone == queues == set k | k in page
  {
    queues, gone := {}, {};
    assert s.workers - {} == s.workers && s.notices - QueuesOf(conf, {}) == s.notices;
    for i := 0 to |page|
      invariant s.workers == old(s.workers) - gone && s.notices == old(s.notices) - QueuesOf(conf, queues)
      invariant s.faults >= old(s.faults)
      invariant gone <= queues <= set k | k in page[..i]
      invariant s.faults == old(s.faults) ==> gone == queues == set k | k in page[..i]
    {
      var w := page[i];
      assert page[..i + 1] == page[..i] + [w];
      var r := s.DeleteNoticeQueue(WorkerQueue(conf, w));
      if !r.Ok? { continue; }
      QueueAdded(conf, old(s.notices), queues, w);
      queues := queues + {w};
      r := s.DeleteWorker(w);
      if r.Ok? {
        assert old(s.workers) - gone - {w} == old(s.workers) - (gone + {w});
        gone := gone + {w};
      } else if r.Refused? {
        assert w in gone;
      }
    }
    assert page[..|page|] == page;
  }

  method ReleaseWorkers(conf: Conf, s: Store, id: string)
    returns (ok: bool, ghost queues: set<WorkerPK>, ghost gone: set<WorkerPK>)
    modifies s
    ensures s.View() == AfterSweep(conf, old(s.View()), NOTHING_SWEPT.(queues := queues, workers := gone))
    ensures s.now == old(s.now) && s.faults >= old(s.faults)
    ensures gone <= queues <= StaleWorkers(old(s.workers), {id}, s.now)
    ensures s.faults == old(s.faults) ==> ok && gone == queues == StaleWorkers(old(s.workers), {id}, s.now)
  {
    queues, gone := {}, {};
    NothingChanges(conf, s.View());
    var r, page := s.QueryExpiredWorkers(id);
    ghost var db := s.View();
    if r.Down? { return false, queues, gone; }
    ghost var stale := StaleWorkers(s.workers, {id}, s.now);
    assert (set k | k in page) <= stale && (s.faults == old(s.faults) ==> (set k | k in page) == stale);
    queues, gone := ReleaseWorkerPage(conf, s, page);
    FewerWorkers(conf, db, queues, gone);
    ok := true;
  }

  lemma QueueAdded(conf: Conf, notices: map<string, multiset<Notice>>, queues: set<WorkerPK>, w: WorkerPK)
    ensures notices - QueuesOf(conf, queues) - {WorkerQueue(conf, w)} == notices - QueuesOf(conf, queues + {w})
  {
    assert QueuesOf(conf, queues + {w}) == QueuesOf(conf, queues) + {WorkerQueue(conf, w)};
  }

  // The whole sweep.

  /** What is known of a sweep of `pools`: part of the work, and all of it if no call failed. */
  predicate Does(done: Swept, work: Swept, faultless: bool) {
    PartOf(done, work) && (faultless ==> done == work)
  }

  function ReplicasOnly(gone: set<ReplicaPK>): Swept { NOTHING_SWEPT.(replicas := gone) }

  function WorkersOnly(queues: set<WorkerPK>, gone: set<WorkerPK>): Swept {
    NOTHING_SWEPT.(queues := queues, workers := gone)
  }

  lemma ThenReplicas(conf: Conf, db: Db, d: Swept, gone: set<ReplicaPK>)
    requires AllocsOnly(d)
    ensures AfterSweep(conf, AfterSweep(conf, db, d), ReplicasOnly(gone)) == AfterSweep(conf, db, d.(replicas := gone))
  {
    SweepsCompose(conf, db, d, ReplicasOnly(gone));
    BothReplicas(d, gone);
  }

  lemma BothReplicas(d: Swept, gone: set<ReplicaPK>)
    requires d.replicas == {}
    ensures Both(d, ReplicasOnly(gone)) == d.(replicas := gone)
  {
  }

  lemma ReplicasKept(conf: Conf, db: Db, d: Swept)
    requires d.replicas == {}
    ensures AfterSweep(conf, db, d).replicas == db.replicas
  {
  }

  lemma ThenWorkers(conf: Conf, db: Db, d: Swept, queues: set<WorkerPK>, gone: set<WorkerPK>, pools: set<string>,
      now: int)
    requires d.queues == {} && d.workers == {}
    ensures AfterSweep(conf, AfterSweep(conf, db, d), WorkersOnly(queues, gone))
         == AfterSweep(conf, db, d.(queues := queues, workers := gone))
    ensures StaleWorkers(AfterSweep(conf, db, d).workers, pools, now) == StaleWorkers(db.workers, pools, now)
  {
    assert Both(d, WorkersOnly(queues, gone)) == d.(queues := queues, workers := gone);
    assert Apart(d, WorkersOnly(queues, gone));
    WorkersAged(conf, db, d, pools, now);
    hide *;
    SweepsCompose(conf, db, d, WorkersOnly(queues, gone));
  }

  lemma WorkersAged(conf: Conf, db: Db, d: Swept, pools: set<string>, now: int)
    requires d.workers == {}
    ensures StaleWorkers(AfterSweep(conf, db, d).workers, pools, now) == StaleWorkers(db.workers, pools, now)
  {
  }

  /** One pool of HandleRelease: each part runs only if the one before returned no error. */
  method SweepPool(conf: Conf, s: Store, id: string, pool: Pool) returns (ghost done: Swept)
    requires id in s.pools && s.pools[id].queue == pool.queue
    modifies s
    ensures s.View() == AfterSweep(conf, old(s.View()), done)
    ensures s.now == old(s.now) && s.faults >= old(s.faults)
    ensures Does(done, Work(old(s.View()), {id}, s.now), s.faults == old(s.faults))
  {
    ghost var db := s.View();
    var ok;
    ok, done := ReleaseAllocs(conf, s, id, pool);
    if ok {
      done := SweepRest(conf, s, id, db, done);
    }
  }

  method SweepRest(conf: Conf, s: Store, id: string, ghost db: Db, ghost d: Swept) returns (ghost done: Swept)
    requires s.View() == AfterSweep(conf, db, d) && AllocsOnly(d)
    modifies s
    ensures s.View() == AfterSweep(conf, db, done)
    ensures s.now == old(s.now) && s.faults >= old(s.faults)
    ensures done == d.(replicas := done.replicas, queues := done.queues, workers := done.workers)
    ensures done.replicas <= StaleReplicas(db.replicas, {id}, s.now)
    ensures done.workers <= done.queues <= StaleWorkers(db.workers, {id}, s.now)
    ensures s.faults == old(s.faults) ==> done.replicas == StaleReplicas(db.replicas, {id}, s.now)
    ensures s.faults == old(s.faults) ==> done.workers == done.queues == StaleWorkers(db.workers, {id}, s.now)
  {
    ghost var gone: set<ReplicaPK>, queues: set<WorkerPK>, lost: set<WorkerPK>;
    var ok;
    ReplicasKept(conf, db, d);
    ok, gone := ReleaseReplicas(conf, s, id);
    ThenReplicas(conf, db, d, gone);
    ghost var d2 := d.(replicas := gone);
    done := d2;
    if ok {
      ThenWorkers(conf, db, d2, {}, {}, {id}, s.now);
      ok, queues, lost := ReleaseWorkers(conf, s, id);
      ThenWorkers(conf, db, d2, queues, lost, {id}, s.now);
      done := d2.(queues := queues, workers := lost);
    }
  }

  lemma OtherPools(conf: Conf, db: Db, done: Swept, pools: set<string>, id: string, now: int)
    requires PartOf(done, Work(db, pools, now)) && id !in pools
    ensures Work(AfterSweep(conf, db, done), {id}, now) == Work(db, {id}, now)
  {
    var db' := AfterSweep(conf, db, done);
    assert Due(db'.allocs, {id}, now) == Due(db.allocs, {id}, now);
    assert StaleReplicas(db'.replicas, {id}, now) == StaleReplicas(db.replicas, {id}, now);
    assert StaleWorkers(db'.workers, {id}, now) == StaleWorkers(db.workers, {id}, now);
  }

  lemma PoolAdded(db: Db, done: Swept, more: Swept, pools: set<string>, id: string, now: int, was: bool, still: bool)
    requires Does(done, Work(db, pools, now), was) && Does(more, Work(db, {id}, now), still)
    ensures Does(Both(done, more), Work(db, pools + {id}, now), was && still)
  {
    assert Work(db, pools + {id}, now) == Both(Work(db, pools, now), Work(db, {id}, now));
  }

  lemma DoneAll(conf: Conf, db: Db, done: Swept, now: int, faultless: bool)
    requires Does(done, Work(db, db.pools.Keys, now), faultless)
    ensures PartOf(done, Work(db, db.pools.Keys, now))
    ensures faultless ==> AfterSweep(conf, db, done) == FullSweep(conf, db, now)
  {
  }

  lemma NothingToDo(db: Db, now: int)
    ensures Does(NOTHING_SWEPT, Work(db, {}, now), true)
  {
    assert Work(db, {}, now) == NOTHING_SWEPT;
  }

  lemma NothingIsPart(db: Db, pools: set<string>, now: int)
    ensures PartOf(NOTHING_SWEPT, Work(db, pools, now))
  {
  }

  method HandleRelease(conf: Conf, s: Store) returns (ok: bool, ghost done: Swept)
    modifies s
    ensures s.View() == AfterSweep(conf, old(s.View()), done)
    ensures s.now == old(s.now) && s.faults >= old(s.faults)
    ensures PartOf(done, Work(old(s.View()), old(s.pools).Keys, s.now))
    ensures s.faults == old(s.faults) ==> ok && s.View() == FullSweep(conf, old(s.View()), s.now)
    ensures OnlyExpiredGone(old(s.View()), s.View(), s.now)
    // The same table by table.
    ensures s.faults == old(s.faults) ==>
      && RowsSwept(old(s.View()), s.View(), s.now) && CapacitySwept(old(s.View()), s.View(), s.now)
      && MailSwept(conf, old(s.View()), s.View(), s.now)
  {
    hide RowsSwept, CapacitySwept, MailSwept, OnlyExpiredGone;
    ghost var db := s.View();
    done := NOTHING_SWEPT;
    NothingChanges(conf, db);
    NothingIsPart(db, s.pools.Keys, s.now);
    PartRows(conf, db, done, s.now);
    ok := s.Call();
    if !ok { return; }
    NothingToDo(db, s.now);
    var rows, rest, swept := s.pools, s.pools.Keys, {};
    while rest != {}
      invariant s.View() == AfterSweep(conf, db, done) && s.now == old(s.now) && s.faults >= old(s.faults)
      invariant rest !! swept && rest + swept == rows.Keys
      invariant Does(done, Work(db, swept, s.now), s.faults == old(s.faults))
      decreases rest
    {
      var id :| id in rest;
      PoolsStay(conf, db, done);
      OtherPools(conf, db, done, swept, id, s.now);
      hide AfterSweep, Work, Does, PartOf, Both, Apart, FullSweep;
      ghost var before := s.faults;
      ghost var more := SweepPool(conf, s, id, rows[id]);
      MoreIsApart(conf, db, done, more, swept, id, s.now, s.faults == before);
      SweepsCompose(conf, db, done, more);
      PoolAdded(db, done, more, swept, id, s.now, before == old(s.faults), s.faults == before);
      done, rest, swept := Both(done, more), rest - {id}, swept + {id};
    }
    assert swept == rows.Keys;
    DoneAll(conf, db, done, s.now, s.faults == old(s.faults));
    PartRows(conf, db, done, s.now);
    SweepRows(conf, db, s.now);
    SweepCapacity(conf, db, s.now);
    SweepMail(conf, db, s.now);
  }

  lemma PoolsStay(conf: Conf, db: Db, done: Swept)
    ensures AfterSweep(conf, db, done).pools == db.pools
  {
  }

  lemma MoreIsApart(conf: Conf, db: Db, done: Swept, more: Swept, pools: set<string>, id: string, now: int,
      faultless: bool)
    requires PartOf(done, Work(db, pools, now)) && id !in pools && Does(more, Work(db, {id}, now), faultless)
    ensures Apart(done, more)
  {
  }
}
