/** The API requests. Each is proved against its effect on the whole state when no call is
    down, and against what it can change at most when some are. */
module Gateway {
  import opened Types
  import opened Names
  import opened Tables
  import opened Store
  import opened Sweeper

  /** `id` stands for freshly drawn random bytes. */
  method CreatePool(conf: Conf, s: Store, id: string) returns (ok: bool)
    modifies s
    ensures s.now == old(s.now) && s.faults >= old(s.faults)
    ensures s.faults == old(s.faults) ==>
      s.View() == CreatedPool(conf, old(s.View()), id) && (ok <==> id !in old(s.pools))
    ensures ok ==> s.View() == CreatedPool(conf, old(s.View()), id)
    ensures !ok ==> s.View() in {old(s.View()), WithPoolQueue(conf, old(s.View()), id)}
    ensures ok ==> id in s.pools && s.pools[id] == Pool(conf.deployment + "-" + id, 0)
    ensures ok ==> conf.deployment + "-" + id in s.evals
  {
    var queue := PoolQueue(conf, id);
    var r := s.CreateEvalQueue(queue);
    if !r.Ok? { return false; }
    r := s.PutNewPool(id, Pool(queue, 0));
    ok := r.Ok?;
  }

  method RegisterWorker(conf: Conf, s: Store, pool: string, id: string, capacity: int) returns (ok: bool)
    modifies s
    ensures s.now == old(s.now) && s.faults >= old(s.faults)
    ensures s.faults == old(s.faults) ==> (ok <==> Active(old(s.View()), pool))
    ensures ok ==> Active(old(s.View()), pool)
    ensures s.faults == old(s.faults) || ok ==>
      s.View() == Registered(conf, old(s.View()), s.now, WorkerPK(pool, id), capacity)
    ensures !ok ==> s.View() in {old(s.View()), WithWorkerQueue(conf, old(s.View()), WorkerPK(pool, id))}
    ensures !Active(old(s.View()), pool) ==> s.View() == old(s.View())
    ensures s.faults == old(s.faults) ==> (ok <==> pool in old(s.pools) && old(s.pools)[pool].ttl <= 0)
    ensures ok ==> conf.deployment + "-" + pool + "-" + id in s.notices
    ensures var row := Worker(capacity, conf.deployment + "-" + pool + "-" + id, s.now + conf.workerTTL);
      ok ==> s.workers == old(s.workers)[WorkerPK(pool, id) := row]
  {
    var r, row := s.GetActivePool(pool);
    if !r.Ok? { return false; }
    var w := WorkerPK(pool, id);
    var queue := WorkerQueue(conf, w);
    r := s.CreateNoticeQueue(queue);
    if !r.Ok? { return false; }
    r := s.PutNewWorker(w, Worker(capacity, queue, s.now + conf.workerTTL));
    ok := r.Ok?;
  }

  /** The queue goes first, so between the two calls the pool looks active but takes no
      evaluations. */
  method DisbandPool(conf: Conf, s: Store, id: string) returns (ok: bool)
    modifies s
    ensures s.now == old(s.now) && s.faults >= old(s.faults)
    ensures s.faults == old(s.faults) ==> (ok <==> id in old(s.pools))
    ensures s.faults == old(s.faults) || ok ==> s.View() == DisbandedPool(conf, old(s.View()), s.now, id)
    ensures !ok ==> s.View() in {old(s.View()), WithoutPoolQueue(conf, old(s.View()), id)}
    ensures ok ==> s.evals == old(s.evals) - {conf.deployment + "-" + id}
    ensures ok ==>
      id in old(s.pools) && s.pools == old(s.pools)[id := old(s.pools)[id].(ttl := s.now + conf.poolTTL)]
  {
    var r := s.DeleteEvalQueue(PoolQueue(conf, id));
    if !r.Ok? { return false; }
    r := s.UpdatePoolTTL(id, s.now + conf.poolTTL);
    ok := r.Ok?;
  }

  method ScheduleEval(s: Store, pool: string, dataset: string, size: int) returns (ok: bool)
    modifies s
    ensures s.now == old(s.now) && s.faults >= old(s.faults)
    ensures ok ==> Active(old(s.View()), pool) && old(s.pools)[pool].queue in old(s.evals)
    ensures s.faults == old(s.faults) ==>
      (ok <==> Active(old(s.View()), pool) && old(s.pools)[pool].queue in old(s.evals))
    ensures s.View() == if ok then Submitted(old(s.View()), pool, Eval(dataset, size, 0)) else old(s.View())
    ensures s.faults == old(s.faults) ==>
      (ok <==> pool in old(s.pools) && old(s.pools)[pool].ttl <= 0 && old(s.pools)[pool].queue in old(s.evals))
    ensures ok ==> pool in old(s.pools) && var q := old(s.pools)[pool].queue;
      q in old(s.evals) && s.evals == old(s.evals)[q := old(s.evals)[q] + multiset{Eval(dataset, size, 0)}]
  {
    var r, row := s.GetActivePool(pool);
    if !r.Ok? { return false; }
    r := s.SendEval(row.queue, Eval(dataset, size, 0));
    ok := r.Ok?;
  }

  method CompleteAlloc(s: Store, k: AllocPK) returns (ok: bool)
    modifies s
    ensures s.now == old(s.now) && s.faults >= old(s.faults)
    ensures s.faults == old(s.faults) || ok ==> s.View() == Completed(old(s.View()), k)
    ensures s.faults == old(s.faults) ==>
      (ok <==> Completable(old(s.View()), k) && Host(k, old(s.allocs)[k]) in old(s.workers))
    ensures ok ==> Completable(old(s.View()), k)
    ensures s.View() in {old(s.View()), Completed(old(s.View()), k), old(s.View()).(allocs := old(s.allocs) - {k})}
    ensures !Completable(old(s.View()), k) ==> s.View() == old(s.View())
    ensures var was := old(s.allocs); var w := WorkerPK(k.pool, if k in was then was[k].worker else "");
      s.faults == old(s.faults) && k.pool in s.pools && s.pools[k.pool].ttl <= 0 && k in was && was[k].eval.Some? ==>
        && s.allocs == was - {k} && s.workers.Keys == old(s.workers).Keys
        && (w in s.workers ==> s.workers[w].capacity == old(s.workers)[w].capacity + was[k].eval.value.size)
        && (forall v | v in s.workers && v != w :: s.workers[v] == old(s.workers)[v])
  {
    var r, pool := s.GetActivePool(k.pool);
    if !r.Ok? { return false; }
    var row;
    r, row := s.GetAlloc(k);
    if !r.Ok? { return false; }
    if row.eval.None? { return false; }
    ghost var removed, credited;
    ok, removed, credited := ReleaseAlloc(s, k, row);
  }

  // Heartbeats.

  lemma PresentNext(allocs: map<AllocPK, Alloc>, pool: string, ids: seq<string>, i: nat)
    requires i < |ids| && forall j | 0 <= j < i :: AllocPK(pool, ids[j]) in allocs
    ensures AllocPK(pool, ids[i]) !in allocs ==> Present(allocs, pool, ids) == i
    ensures AllocPK(pool, ids[i]) in allocs ==> Present(allocs, pool, ids) > i
  {
  }

  lemma RenewedNext(allocs: map<AllocPK, Alloc>, ks: set<AllocPK>, k: AllocPK, ttl: int)
    requires k in allocs
    ensures k in Renewed(allocs, ks, ttl)
    ensures Renewed(allocs, ks + {k}, ttl) == Renewed(allocs, ks, ttl)[k := Renewed(allocs, ks, ttl)[k].(ttl := ttl)]
  {
  }

  lemma CopiedNext(replicas: map<ReplicaPK, int>, w: WorkerPK, datasets: seq<string>, i: nat, ttl: int)
    requires i < |datasets|
    ensures Copied(replicas, w, datasets[..i + 1], ttl)
         == Copied(replicas, w, datasets[..i], ttl)[ReplicaPK(w.pool, ReplicaID(datasets[i], w.worker)) := ttl]
  {
    assert datasets[..i + 1] == datasets[..i] + [datasets[i]];
    assert Copies(w, datasets[..i + 1])
        == Copies(w, datasets[..i]) + {ReplicaPK(w.pool, ReplicaID(datasets[i], w.worker))};
  }

  /** The loop over the datasets. It stops at a call that is down, after `n` replicas. */
  method PutReplicas(s: Store, w: WorkerPK, datasets: seq<string>, ttl: int) returns (ok: bool, ghost n: nat)
    modifies s`replicas, s`faults
    ensures s.faults >= old(s.faults) && (s.faults == old(s.faults) ==> ok)
    ensures n <= |datasets| && (ok <==> n == |datasets|)
    ensures s.replicas == Copied(old(s.replicas), w, datasets[..n], ttl)
  {
    assert Copied(s.replicas, w, datasets[..0], ttl) == s.replicas;
    hide Copied;
    for i := 0 to |datasets|
      invariant s.faults == old(s.faults)
      invariant s.replicas == Copied(old(s.replicas), w, datasets[..i], ttl)
    {
      CopiedNext(old(s.replicas), w, datasets, i, ttl);
      var r := s.PutReplica(ReplicaPK(w.pool, ReplicaID(datasets[i], w.worker)), ttl);
      if !r.Ok? { return false, i; }
    }
    return true, |datasets|;
  }

  /** The loop over the allocs. It stops at the first one that does not exist, or at a call
      that is down, after `n` allocs. */
  method RenewAllocs(s: Store, pool: string, ids: seq<string>, ttl: int) returns (ok: bool, ghost n: nat)
    modifies s`allocs, s`faults
    ensures s.faults >= old(s.faults)
    ensures n <= Present(old(s.allocs), pool, ids) && (ok <==> n == |ids|)
    ensures s.faults == old(s.faults) ==> n == Present(old(s.allocs), pool, ids)
    ensures s.allocs == Renewed(old(s.allocs), Claims(pool, ids[..n]), ttl)
  {
    ghost var allocs := s.allocs;
    assert Renewed(allocs, {}, ttl) == allocs;
    for i := 0 to |ids|
      invariant s.faults >= old(s.faults)
      invariant s.allocs == Renewed(allocs, Claims(pool, ids[..i]), ttl)
      invariant i <= Present(allocs, pool, ids)
      invariant forall j | 0 <= j < i :: AllocPK(pool, ids[j]) in allocs
    {
      var k := AllocPK(pool, ids[i]);
      PresentNext(allocs, pool, ids, i);
      assert ids[..i + 1] == ids[..i] + [ids[i]];
      assert Claims(pool, ids[..i + 1]) == Claims(pool, ids[..i]) + {k};
      var r := s.UpdateAllocTTL(k, ttl);
      if !r.Ok? { return false, i; }
      RenewedNext(allocs, Claims(pool, ids[..i]), k, ttl);
    }
    return true, |ids|;
  }

  /** The two loops of a heartbeat, one after the other. */
  method RenewRows(conf: Conf, s: Store, w: WorkerPK, datasets: seq<string>, ids: seq<string>)
    returns (ok: bool, ghost n: nat, ghost m: nat)
    modifies s`replicas, s`allocs, s`faults
    ensures s.faults >= old(s.faults)
    ensures GotTo(old(s.allocs), w, datasets, ids, n, m) && (ok <==> n == |datasets| && m == |ids|)
    ensures s.faults == old(s.faults) ==> n == |datasets| && m == Present(old(s.allocs), w.pool, ids)
    ensures s.replicas == Copied(old(s.replicas), w, datasets[..n], s.now + conf.replicaTTL)
    ensures s.allocs == Renewed(old(s.allocs), Claims(w.pool, ids[..m]), s.now + conf.allocTTL)
  {
    assert Renewed(s.allocs, Claims(w.pool, ids[..0]), s.now + conf.allocTTL) == s.allocs;
    m := 0;
    ok, n := PutReplicas(s, w, datasets, s.now + conf.replicaTTL);
    if !ok { return; }
    ok, m := RenewAllocs(s, w.pool, ids, s.now + conf.allocTTL);
  }

  /** The start of a heartbeat: the pool is looked up and the worker renewed. */
  method RenewWorker(conf: Conf, s: Store, w: WorkerPK) returns (beat: bool)
    modifies s`workers, s`faults
    ensures s.faults >= old(s.faults)
    ensures beat ==> Beats(old(s.View()), w)
    ensures beat ==> s.workers == old(s.workers)[w := old(s.workers)[w].(ttl := s.now + conf.workerTTL)]
    ensures !beat ==> s.workers == old(s.workers)
    ensures s.faults == old(s.faults) ==> (beat <==> Beats(old(s.View()), w))
  {
    var r, row := s.GetActivePool(w.pool);
    if !r.Ok? { return false; }
    r := s.UpdateWorkerTTL(w, s.now + conf.workerTTL);
    beat := r.Ok?;
  }

  /** The renewals of a heartbeat, row by row. */
  predicate BeatDid(conf: Conf, db: Db, now: int, w: WorkerPK, datasets: seq<string>, ids: seq<string>, n: nat, m: nat)
    requires n <= |datasets| && m <= |ids|
  {
    && w in db.workers && db.workers[w].ttl == now + conf.workerTTL
    && (forall i | 0 <= i < n ::
          var r := ReplicaPK(w.pool, datasets[i] + ":" + w.worker);
          r in db.replicas && db.replicas[r] == now + conf.replicaTTL)
    && (forall i | 0 <= i < m ::
          AllocPK(w.pool, ids[i]) in db.allocs && db.allocs[AllocPK(w.pool, ids[i])].ttl == now + conf.allocTTL)
  }

  lemma BeatenDid(conf: Conf, db: Db, now: int, w: WorkerPK, datasets: seq<string>, ids: seq<string>, n: nat, m: nat)
    requires w in db.workers && n <= |datasets| && GotTo(db.allocs, w, datasets, ids, n, m)
    ensures BeatDid(conf, Beaten(conf, db, now, w, datasets[..n], ids[..m]), now, w, datasets, ids, n, m)
  {
    forall i | 0 <= i < n
      ensures ReplicaPK(w.pool, datasets[i] + ":" + w.worker) in Copies(w, datasets[..n])
    {
      assert datasets[..n][i] in datasets[..n];
      assert ReplicaID(datasets[i], w.worker) == datasets[i] + ":" + w.worker;
    }
    forall i | 0 <= i < m
      ensures AllocPK(w.pool, ids[i]) in Claims(w.pool, ids[..m])
    {
      assert ids[..m][i] in ids[..m];
    }
  }

  lemma BeatenBy(conf: Conf, before: Db, after: Db, now: int, w: WorkerPK, datasets: seq<string>, ids: seq<string>)
    requires w in before.workers
    requires after == before.(
      workers := before.workers[w := before.workers[w].(ttl := now + conf.workerTTL)],
      replicas := Copied(before.replicas, w, datasets, now + conf.replicaTTL),
      allocs := Renewed(before.allocs, Claims(w.pool, ids), now + conf.allocTTL))
    ensures after == Beaten(conf, before, now, w, datasets, ids)
  {
  }

  /** Whatever fails, a heartbeat either did nothing or renewed the worker and a prefix of
      the rows it lists. */
  method SendHeartbeat(conf: Conf, s: Store, w: WorkerPK, datasets: seq<string>, ids: seq<string>)
    returns (ok: bool, ghost beat: bool, ghost n: nat, ghost m: nat)
    modifies s
    ensures s.now == old(s.now) && s.faults >= old(s.faults)
    ensures beat ==> Beats(old(s.View()), w) && GotTo(old(s.allocs), w, datasets, ids, n, m)
    ensures s.View() == if beat then Beaten(conf, old(s.View()), s.now, w, datasets[..n], ids[..m]) else old(s.View())
    ensures ok <==> beat && n == |datasets| && m == |ids|
    ensures s.faults == old(s.faults) ==> (beat <==> Beats(old(s.View()), w))
    ensures s.faults == old(s.faults) && beat ==> n == |datasets| && m == Present(old(s.allocs), w.pool, ids)
    ensures s.faults == old(s.faults) ==> s.View() == Heartbeat(conf, old(s.View()), s.now, w, datasets, ids)
    // The same row by row.
    ensures s.faults == old(s.faults) ==>
      (beat <==> w.pool in old(s.pools) && old(s.pools)[w.pool].ttl <= 0 && w in old(s.workers))
    ensures beat ==> n <= |datasets| && m <= |ids| && BeatDid(conf, s.View(), s.now, w, datasets, ids, n, m)
    ensures s.faults == old(s.faults) && beat && m < |ids| ==> AllocPK(w.pool, ids[m]) !in old(s.allocs)
  {
    hide Copied, Renewed, Claims, Present, Beaten, Beats, Heartbeat;
    ghost var before := s.View();
    BeatsMeans(before, w);
    assert forall i | i == Present(s.allocs, w.pool, ids) && i < |ids| :: AllocPK(w.pool, ids[i]) !in s.allocs;
    n, m := 0, 0;
    ok := RenewWorker(conf, s, w);
    beat := ok;
    if !ok {
      NoBeat(conf, before, s.now, w, datasets, ids);
      return;
    }
    ok, n, m := RenewRows(conf, s, w, datasets, ids);
    BeatsHas(before, w);
    BeatenBy(conf, before, s.View(), s.now, w, datasets[..n], ids[..m]);
    WholeBeat(conf, before, s.now, w, datasets, ids);
    hide BeatDid;
    BeatenDid(conf, before, s.now, w, datasets, ids, n, m);
  }

  lemma BeatsMeans(db: Db, w: WorkerPK)
    ensures Beats(db, w) <==> w.pool in db.pools && db.pools[w.pool].ttl <= 0 && w in db.workers
  {
  }

  lemma NoBeat(conf: Conf, db: Db, now: int, w: WorkerPK, datasets: seq<string>, ids: seq<string>)
    ensures Beats(db, w) || Heartbeat(conf, db, now, w, datasets, ids) == db
  {
  }

  lemma BeatsHas(db: Db, w: WorkerPK)
    requires Beats(db, w)
    ensures w in db.workers
  {
  }

  /** A heartbeat that got to the end, or to the first missing alloc, is a whole one. */
  lemma WholeBeat(conf: Conf, db: Db, now: int, w: WorkerPK, datasets: seq<string>, ids: seq<string>)
    requires Beats(db, w)
    ensures Beaten(conf, db, now, w, datasets[..|datasets|], ids[..Present(db.allocs, w.pool, ids)])
         == Heartbeat(conf, db, now, w, datasets, ids)
  {
    assert datasets[..|datasets|] == datasets;
  }

  /** However far it got, a heartbeat changes nothing but leases, and only those of its worker,
      of the datasets and of the allocs it lists; it removes no replica. */
  lemma OnlyLeases(conf: Conf, db: Db, now: int, w: WorkerPK, datasets: seq<string>, ids: seq<string>, n: nat, m: nat)
    requires w in db.workers && GotTo(db.allocs, w, datasets, ids, n, m)
    ensures var after := Beaten(conf, db, now, w, datasets[..n], ids[..m]);
      && after.pools == db.pools && after.evals == db.evals && after.notices == db.notices && after.dead == db.dead
      && after.workers == db.workers[w := db.workers[w].(ttl := now + conf.workerTTL)]
      && after.allocs.Keys == db.allocs.Keys
      && (forall k | k in db.allocs :: after.allocs[k].(ttl := db.allocs[k].ttl) == db.allocs[k])
      && (forall k | k in db.allocs && k !in Claims(w.pool, ids) :: after.allocs[k] == db.allocs[k])
      && (forall r | r in db.replicas :: r in after.replicas)
      && (forall r | r in after.replicas && r !in Copies(w, datasets) ::
          r in db.replicas && after.replicas[r] == db.replicas[r])
  {
    assert forall d | d in datasets[..n] :: d in datasets;
    assert forall id | id in ids[..m] :: id in ids;
  }

  /** A list of allocs is renewed entirely exactly when none of them is missing. */
  lemma {:induction false} AllPresent(allocs: map<AllocPK, Alloc>, pool: string, ids: seq<string>)
    ensures Present(allocs, pool, ids) == |ids| <==> forall id | id in ids :: AllocPK(pool, id) in allocs
  {
    var n := Present(allocs, pool, ids);
    if n < |ids| {
      assert ids[n] in ids;
    }
  }
}
