/** The tables and queues, changed in place by single calls. Any call may be down; what a
    call does when it is up is what its condition and update expressions say. */
module Store {
  import opened Types
  import opened Tables

  /** Refused: the condition failed, or the row or queue is missing. Down: the service failed
      and nothing was written. */
  datatype Reply = Ok | Refused | Down

  class Store {
    var pools: map<string, Pool>
    var workers: map<WorkerPK, Worker>
    var allocs: map<AllocPK, Alloc>
    var replicas: map<ReplicaPK, int>
    var evals: map<string, multiset<Eval>>
    var notices: map<string, multiset<Notice>>
    var dead: multiset<Eval>
    var now: int     // the clock stands still during a request
    var faults: nat  // calls that were down so far

    constructor (now: int)
      ensures View() == Db(map[], map[], map[], map[], map[], map[], multiset{})
      ensures this.now == now && faults == 0
    {
      pools, workers, allocs, replicas, evals, notices, dead := map[], map[], map[], map[], map[], map[], multiset{};
      this.now := now;
      faults := 0;
    }

    function View(): Db
      reads this
    {
      Db(pools, workers, allocs, replicas, evals, notices, dead)
    }

    method Call() returns (up: bool)
      modifies this`faults
      ensures faults == old(faults) + if up then 0 else 1
    {
      up := *;
      if !up { faults := faults + 1; }
    }

    // Pool rows.

    method PutNewPool(id: string, row: Pool) returns (r: Reply)
      modifies this`pools, this`faults
      ensures faults == old(faults) + if r.Down? then 1 else 0
      ensures r.Ok? ==> id !in old(pools) && pools == old(pools)[id := row]
      ensures r.Refused? ==> id in old(pools)
      ensures !r.Ok? ==> pools == old(pools)
    {
      var up := Call();
      if !up { return Down; }
      if id in pools { return Refused; }
      pools := pools[id := row];
      return Ok;
    }

    method UpdatePoolTTL(id: string, ttl: int) returns (r: Reply)
      modifies this`pools, this`faults
      ensures faults == old(faults) + if r.Down? then 1 else 0
      ensures r.Ok? ==> id in old(pools) && pools == old(pools)[id := old(pools)[id].(ttl := ttl)]
      ensures r.Refused? ==> id !in old(pools)
      ensures !r.Ok? ==> pools == old(pools)
    {
      var up := Call();
      if !up { return Down; }
      if id !in pools { return Refused; }
      pools := pools[id := pools[id].(ttl := ttl)];
      return Ok;
    }

    method GetPool(id: string) returns (r: Reply, row: Pool)
      modifies this`faults
      ensures faults == old(faults) + if r.Down? then 1 else 0
      ensures r.Ok? ==> id in pools && row == pools[id]
      ensures r.Refused? ==> id !in pools
    {
      row := Pool("", 0);
      var up := Call();
      if !up { return Down, row; }
      if id !in pools { return Refused, row; }
      return Ok, pools[id];
    }

    /** A disbanded pool is as good as missing: every caller stops before it writes. */
    method GetActivePool(id: string) returns (r: Reply, row: Pool)
      modifies this`faults
      ensures faults == old(faults) + if r.Down? then 1 else 0
      ensures r.Ok? ==> Active(View(), id) && row == pools[id]
      ensures r.Refused? ==> !Active(View(), id)
      ensures r.Ok? ==> id in pools && pools[id].ttl <= 0
      ensures r.Refused? ==> id !in pools || pools[id].ttl > 0
    {
      r, row := GetPool(id);
      if r.Ok? && Disbanded(row) { r := Refused; }
    }

    // Worker rows.

    /** The guard names an attribute no row has, so the put never fails and overwrites. */
    method PutNewWorker(w: WorkerPK, row: Worker) returns (r: Reply)
      modifies this`workers, this`faults
      ensures faults == old(faults) + if r.Down? then 1 else 0
      ensures !r.Refused?
      ensures workers == if r.Ok? then old(workers)[w := row] else old(workers)
    {
      var up := Call();
      if !up { return Down; }
      workers := workers[w := row];
      return Ok;
    }

    method DeleteWorker(w: WorkerPK) returns (r: Reply)
      modifies this`workers, this`faults
      ensures faults == old(faults) + if r.Down? then 1 else 0
      ensures r.Ok? ==> w in old(workers)
      ensures r.Refused? ==> w !in old(workers)
      ensures workers == if r.Ok? then old(workers) - {w} else old(workers)
    {
      var up := Call();
      if !up { return Down; }
      if w !in workers { return Refused; }
      workers := workers - {w};
      return Ok;
    }

    method UpdateWorkerTTL(w: WorkerPK, ttl: int) returns (r: Reply)
      modifies this`workers, this`faults
      ensures faults == old(faults) + if r.Down? then 1 else 0
      ensures r.Ok? ==> w in old(workers) && workers == old(workers)[w := old(workers)[w].(ttl := ttl)]
      ensures r.Refused? ==> w !in old(workers)
      ensures !r.Ok? ==> workers == old(workers)
    {
      var up := Call();
      if !up { return Down; }
      if w !in workers { return Refused; }
      workers := workers[w := workers[w].(ttl := ttl)];
      return Ok;
    }

    /** SET cap = cap - :claim, on condition that cap >= :claim. */
    method ClaimCapacity(w: WorkerPK, size: int) returns (r: Reply)
      modifies this`workers, this`faults
      ensures faults == old(faults) + if r.Down? then 1 else 0
      ensures r.Ok? ==> w in old(workers) && old(workers)[w].capacity >= size
      ensures r.Ok? ==> workers == Credited(old(workers), w, -size)
      ensures r.Refused? ==> w !in old(workers) || old(workers)[w].capacity < size
      ensures !r.Ok? ==> workers == old(workers)
    {
      var up := Call();
      if !up { return Down; }
      if w !in workers || workers[w].capacity < size { return Refused; }
      workers := workers[w := workers[w].(capacity := workers[w].capacity - size)];
      return Ok;
    }

    /** SET cap = cap + :allocSize, which fails on a missing row. */
    method CreditCapacity(w: WorkerPK, size: int) returns (r: Reply)
      modifies this`workers, this`faults
      ensures faults == old(faults) + if r.Down? then 1 else 0
      ensures r.Refused? <==> !r.Down? && w !in old(workers)
      ensures workers == if r.Down? then old(workers) else Credited(old(workers), w, size)
    {
      var up := Call();
      if !up { return Down; }
      if w !in workers { return Refused; }
      workers := workers[w := workers[w].(capacity := workers[w].capacity + size)];
      return Ok;
    }

    // Alloc rows.

    method PutNewAlloc(k: AllocPK, row: Alloc) returns (r: Reply)
      modifies this`allocs, this`faults
      ensures faults == old(faults) + if r.Down? then 1 else 0
      ensures r.Ok? ==> k !in old(allocs) && allocs == old(allocs)[k := row]
      ensures r.Refused? ==> k in old(allocs)
      ensures !r.Ok? ==> allocs == old(allocs)
    {
      var up := Call();
      if !up { return Down; }
      if k in allocs { return Refused; }
      allocs := allocs[k := row];
      return Ok;
    }

    method UpdateAllocTTL(k: AllocPK, ttl: int) returns (r: Reply)
      modifies this`allocs, this`faults
      ensures faults == old(faults) + if r.Down? then 1 else 0
      ensures r.Ok? ==> k in old(allocs) && allocs == old(allocs)[k := old(allocs)[k].(ttl := ttl)]
      ensures r.Refused? ==> k !in old(allocs)
      ensures !r.Ok? ==> allocs == old(allocs)
    {
      var up := Call();
      if !up { return Down; }
      if k !in allocs { return Refused; }
      allocs := allocs[k := allocs[k].(ttl := ttl)];
      return Ok;
    }

    method GetAlloc(k: AllocPK) returns (r: Reply, row: Alloc)
      modifies this`faults
      ensures faults == old(faults) + if r.Down? then 1 else 0
      ensures r.Ok? ==> k in allocs && row == allocs[k]
      ensures r.Refused? ==> k !in allocs
    {
      row := Alloc(0, "", None);
      var up := Call();
      if !up { return Down, row; }
      if k !in allocs { return Refused, row; }
      return Ok, allocs[k];
    }

    /** Unconditional: it succeeds on a missing row too. */
    method DeleteAlloc(k: AllocPK) returns (r: Reply)
      modifies this`allocs, this`faults
      ensures faults == old(faults) + if r.Down? then 1 else 0
      ensures !r.Refused?
      ensures allocs == if r.Ok? then old(allocs) - {k} else old(allocs)
    {
      var up := Call();
      if !up { return Down; }
      allocs := allocs - {k};
      return Ok;
    }

    // Replica rows.

    method PutReplica(k: ReplicaPK, ttl: int) returns (r: Reply)
      modifies this`replicas, this`faults
      ensures faults == old(faults) + if r.Down? then 1 else 0
      ensures !r.Refused?
      ensures replicas == if r.Ok? then old(replicas)[k := ttl] else old(replicas)
    {
      var up := Call();
      if !up { return Down; }
      replicas := replicas[k := ttl];
      return Ok;
    }

    method DeleteReplica(k: ReplicaPK) returns (r: Reply)
      modifies this`replicas, this`faults
      ensures faults == old(faults) + if r.Down? then 1 else 0
      ensures !r.Refused?
      ensures replicas == if r.Ok? then old(replicas) - {k} else old(replicas)
    {
      var up := Call();
      if !up { return Down; }
      replicas := replicas - {k};
      return Ok;
    }

    // Queues. Creating one that exists, or deleting one that does not, succeeds.

    method CreateEvalQueue(q: string) returns (r: Reply)
      modifies this`evals, this`faults
      ensures faults == old(faults) + if r.Down? then 1 else 0
      ensures !r.Refused?
      ensures evals == if r.Ok? && q !in old(evals) then old(evals)[q := multiset{}] else old(evals)
    {
      var up := Call();
      if !up { return Down; }
      if q !in evals { evals := evals[q := multiset{}]; }
      return Ok;
    }

    method DeleteEvalQueue(q: string) returns (r: Reply)
      modifies this`evals, this`faults
      ensures faults == old(faults) + if r.Down? then 1 else 0
      ensures !r.Refused?
      ensures evals == if r.Ok? then old(evals) - {q} else old(evals)
    {
      var up := Call();
      if !up { return Down; }
      evals := evals - {q};
      return Ok;
    }

    method SendEval(q: string, eval: Eval) returns (r: Reply)
      modifies this`evals, this`faults
      ensures faults == old(faults) + if r.Down? then 1 else 0
      ensures r.Ok? ==> q in old(evals) && evals == old(evals)[q := old(evals)[q] + multiset{eval}]
      ensures r.Refused? ==> q !in old(evals)
      ensures !r.Ok? ==> evals == old(evals)
    {
      var up := Call();
      if !up { return Down; }
      if q !in evals { return Refused; }
      evals := evals[q := evals[q] + multiset{eval}];
      return Ok;
    }

    /** At most one message, any of those waiting. */
    method ReceiveEval(q: string) returns (r: Reply, msg: Option<Eval>)
      modifies this`faults
      ensures faults == old(faults) + if r.Down? then 1 else 0
      ensures r.Ok? ==> q in evals && (msg.None? ==> evals[q] == multiset{}) && (msg.Some? ==> msg.value in evals[q])
      ensures r.Refused? ==> q !in evals
      ensures !r.Ok? ==> msg.None?
    {
      var up := Call();
      if !up { return Down, None; }
      if q !in evals { return Refused, None; }
      if evals[q] == multiset{} { return Ok, None; }
      assert exists m :: m in evals[q];
      var m :| m in evals[q];
      return Ok, Some(m);
    }

    method DeleteEval(q: string, msg: Eval) returns (r: Reply)
      modifies this`evals, this`faults
      ensures faults == old(faults) + if r.Down? then 1 else 0
      ensures r.Ok? ==> q in old(evals) && evals == old(evals)[q := old(evals)[q] - multiset{msg}]
      ensures r.Refused? ==> q !in old(evals)
      ensures !r.Ok? ==> evals == old(evals)
    {
      var up := Call();
      if !up { return Down; }
      if q !in evals { return Refused; }
      evals := evals[q := evals[q] - multiset{msg}];
      return Ok;
    }

    method SendDeadLetter(eval: Eval) returns (r: Reply)
      modifies this`dead, this`faults
      ensures faults == old(faults) + if r.Down? then 1 else 0
      ensures !r.Refused?
      ensures dead == if r.Ok? then old(dead) + multiset{eval} else old(dead)
    {
      var up := Call();
      if !up { return Down; }
      dead := dead + multiset{eval};
      return Ok;
    }

    method CreateNoticeQueue(q: string) returns (r: Reply)
      modifies this`notices, this`faults
      ensures faults == old(faults) + if r.Down? then 1 else 0
      ensures !r.Refused?
      ensures notices == if r.Ok? && q !in old(notices) then old(notices)[q := multiset{}] else old(notices)
    {
      var up := Call();
      if !up { return Down; }
      if q !in notices { notices := notices[q := multiset{}]; }
      return Ok;
    }

    method DeleteNoticeQueue(q: string) returns (r: Reply)
      modifies this`notices, this`faults
      ensures faults == old(faults) + if r.Down? then 1 else 0
      ensures !r.Refused?
      ensures notices == if r.Ok? then old(notices) - {q} else old(notices)
    {
      var up := Call();
      if !up { return Down; }
      notices := notices - {q};
      return Ok;
    }

    method SendNotice(q: string, notice: Notice) returns (r: Reply)
      modifies this`notices, this`faults
      ensures faults == old(faults) + if r.Down? then 1 else 0
      ensures r.Ok? ==> q in old(notices) && notices == old(notices)[q := old(notices)[q] + multiset{notice}]
      ensures r.Refused? ==> q !in old(notices)
      ensures !r.Ok? ==> notices == old(notices)
    {
      var up := Call();
      if !up { return Down; }
      if q !in notices { return Refused; }
      notices := notices[q := notices[q] + multiset{notice}];
      return Ok;
    }

    // Queries. A page that does not hold every match counts as a fault.

    method QueryExpiredAllocs(pool: string) returns (r: Reply, page: seq<AllocPK>)
      modifies this`faults
      ensures faults >= old(faults) && (r.Down? ==> faults > old(faults)) && !r.Refused?
      ensures forall i | 0 <= i < |page| :: page[i] in allocs && page[i].pool == pool && allocs[page[i]].ttl < now
      ensures forall i, j | 0 <= i < j < |page| :: page[i] != page[j]
      ensures faults == old(faults) ==> forall k | k in allocs && k.pool == pool && allocs[k].ttl < now :: k in page
    {
      page := [];
      var up := Call();
      if !up { return Down, page; }
      var rest := set k | k in allocs && k.pool == pool && allocs[k].ttl < now;
      page := Listed(rest);
      return Ok, page;
    }

    method QueryExpiredReplicas(pool: string) returns (r: Reply, page: seq<ReplicaPK>)
      modifies this`faults
      ensures faults >= old(faults) && (r.Down? ==> faults > old(faults)) && !r.Refused?
      ensures forall i | 0 <= i < |page| :: page[i] in replicas && page[i].pool == pool && replicas[page[i]] < now
      ensures forall i, j | 0 <= i < j < |page| :: page[i] != page[j]
      ensures faults == old(faults) ==> forall k | k in replicas && k.pool == pool && replicas[k] < now :: k in page
    {
      page := [];
      var up := Call();
      if !up { return Down, page; }
      var rest := set k | k in replicas && k.pool == pool && replicas[k] < now;
      page := Listed(rest);
      return Ok, page;
    }

    method QueryExpiredWorkers(pool: string) returns (r: Reply, page: seq<WorkerPK>)
      modifies this`faults
      ensures faults >= old(faults) && (r.Down? ==> faults > old(faults)) && !r.Refused?
      ensures forall i | 0 <= i < |page| :: page[i] in workers && page[i].pool == pool && workers[page[i]].ttl < now
      ensures forall i, j | 0 <= i < j < |page| :: page[i] != page[j]
      ensures faults == old(faults) ==> forall k | k in workers && k.pool == pool && workers[k].ttl < now :: k in page
    {
      page := [];
      var up := Call();
      if !up { return Down, page; }
      var rest := set k | k in workers && k.pool == pool && workers[k].ttl < now;
      page := Listed(rest);
      return Ok, page;
    }

    /** Some elements of `all`, in any order; if any are left out that is a fault. */
    method Listed<T(==)>(all: set<T>) returns (page: seq<T>)
      modifies this`faults
      ensures faults >= old(faults)
      ensures forall i | 0 <= i < |page| :: page[i] in all
      ensures forall i, j | 0 <= i < j < |page| :: page[i] != page[j]
      ensures faults == old(faults) ==> forall x | x in all :: x in page
    {
      page := [];
      var rest := all;
      while rest != {}
        invariant rest <= all && faults == old(faults)
        invariant forall x :: x in page <==> x in all && x !in rest
        invariant forall i, j | 0 <= i < j < |page| :: page[i] != page[j]
        decreases rest
      {
        var more := Call();
        if !more { return; }
        var x :| x in rest;
        page, rest := page + [x], rest - {x};
      }
    }
  }
}
