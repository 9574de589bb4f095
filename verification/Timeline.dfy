/** Runs at the grain of whole requests: each event is one handler with the effect proved for
    it on the store, be it the whole effect or the part that failing calls left, and the clock
    moves between events. */
module Timeline {
  import opened Types
  import opened Names
  import opened Tables
  import opened Readers
  import S = Scheduler

  datatype World = World(db: Db, now: int)

  datatype Event =
    | Tick(seconds: nat)
    | CreatePool(pool: string)
    | Register(w: WorkerPK, capacity: nat)
    | Disband(pool: string)
    | Beat(w: WorkerPK, datasets: seq<string>, ids: seq<string>)
    | Submit(pool: string, dataset: string, size: int)
    | Place(msg: Eval, w: WorkerPK, alloc: string)  // one delivered round of ReceiveEvals
    | Complete(k: AllocPK)
    | Sweep
    // The same with a failing call, as far as they leave anything behind.
    | CutCreate(pool: string)   // only the queue was created
    | CutRegister(w: WorkerPK)  // only the queue was created
    | CutDisband(pool: string)  // only the queue was deleted
    | CutBeat(w: WorkerPK, datasets: seq<string>, ids: seq<string>, n: nat, m: nat)  // got as far as n and m
    | Keep(msg: Eval, w: WorkerPK, alloc: string, told: bool)  // a round that recorded the alloc but left the message
    | LoseClaim(msg: Eval, w: WorkerPK)  // a round that claimed capacity and recorded nothing
    | CutComplete(k: AllocPK)   // the row was deleted, the worker not credited
    | CutSweep(done: Swept)     // only this part of the work was done

  const EMPTY := Db(map[], map[], map[], map[], map[], map[], multiset{})

  predicate CanClaim(wd: World, msg: Eval, w: WorkerPK) {
    && Active(wd.db, w.pool)
    && var queue := wd.db.pools[w.pool].queue;
    && queue in wd.db.evals && msg in wd.db.evals[queue]
    && w in wd.db.workers && wd.db.workers[w].capacity >= Normalised(msg).size && wd.db.workers[w].ttl >= wd.now
  }

  /** The scheduler serves active pools and picks unexpired workers that have the room. */
  predicate CanKeep(wd: World, msg: Eval, w: WorkerPK, alloc: string) {
    && Active(wd.db, w.pool)
    && Placeable(wd.db, wd.db.pools[w.pool].queue, msg, w, AllocPK(w.pool, alloc))
    && wd.db.workers[w].ttl >= wd.now
  }

  predicate CanPlace(conf: Conf, wd: World, msg: Eval, w: WorkerPK, alloc: string) {
    CanKeep(wd, msg, w, alloc) && WorkerQueue(conf, w) in wd.db.notices
  }

  /** The alloc is recorded and possibly announced, and the message stays queued. */
  function Retained(conf: Conf, wd: World, msg: Eval, w: WorkerPK, alloc: string, told: bool): Db
    requires CanKeep(wd, msg, w, alloc) && (told ==> WorkerQueue(conf, w) in wd.db.notices)
  {
    var k := AllocPK(w.pool, alloc);
    var placed := Placed(conf, wd.db, wd.now, msg, w, k);
    if told then Announced(conf, placed, wd.db.pools[w.pool].queue, msg, w, k).(evals := wd.db.evals) else placed
  }

  ghost function Happens(conf: Conf, wd: World, ev: Event): World {
    wd.(now := if ev.Tick? then wd.now + ev.seconds else wd.now, db := Effect(conf, wd, ev))
  }

  ghost function Effect(conf: Conf, wd: World, ev: Event): Db {
    var db, now := wd.db, wd.now;
    match ev
    case Tick(_) => db
    case CreatePool(pool) => CreatedPool(conf, db, pool)
    case Register(w, capacity) => if IsId(w.worker) then Registered(conf, db, now, w, capacity) else db
    case Disband(pool) => DisbandedPool(conf, db, now, pool)
    case Beat(w, datasets, ids) => Heartbeat(conf, db, now, w, datasets, ids)
    case Submit(pool, dataset, size) => Submitted(db, pool, Eval(dataset, size, 0))
    case Place(msg, w, alloc) =>
      var k := AllocPK(w.pool, alloc);
      if CanPlace(conf, wd, msg, w, alloc)
      then Announced(conf, Placed(conf, db, now, msg, w, k), db.pools[w.pool].queue, msg, w, k) else db
    case Complete(k) => Completed(db, k)
    case Sweep => FullSweep(conf, db, now)
    case CutCreate(pool) => WithPoolQueue(conf, db, pool)
    case CutRegister(w) => if Active(db, w.pool) then WithWorkerQueue(conf, db, w) else db
    case CutDisband(pool) => WithoutPoolQueue(conf, db, pool)
    case CutBeat(w, datasets, ids, n, m) =>
      if Beats(db, w) && GotTo(db.allocs, w, datasets, ids, n, m)
      then Beaten(conf, db, now, w, datasets[..n], ids[..m]) else db
    case Keep(msg, w, alloc, told) =>
      if CanKeep(wd, msg, w, alloc) && (told ==> WorkerQueue(conf, w) in db.notices)
      then Retained(conf, wd, msg, w, alloc, told) else db
    case LoseClaim(msg, w) =>
      if CanClaim(wd, msg, w) then db.(workers := Credited(db.workers, w, -Normalised(msg).size)) else db
    case CutComplete(k) => if Completable(db, k) then db.(allocs := db.allocs - {k}) else db
    case CutSweep(done) =>
      if PartOf(done, Work(db, db.pools.Keys, now)) then AfterSweep(conf, db, done) else db
  }

  /** A round of the scheduler that delivers is such an event: the worker it chose from an
      up-to-date page of the index can be given the alloc, and nothing else changes. */
  lemma DeliveredIsPlace(conf: Conf, wd: World, after: Db, id: string, alloc: string,
                         round: S.Round, page: seq<Candidate>, choice: Option<Candidate>)
    requires Active(wd.db, id) && round.Delivered?
    requires S.Justified(wd.db, wd.now, id, wd.db.pools[id].queue, round, page, choice)
    requires S.Stored(conf, wd.db, after, wd.now, wd.db.pools[id].queue, AllocPK(id, alloc), round)
    ensures CanPlace(conf, wd, round.msg, round.w, alloc)
    ensures Happens(conf, wd, Place(round.msg, round.w, alloc)) == wd.(db := after)
  {
  }

  /** And one that recorded the alloc but did not get to delete the message is a Keep. */
  lemma UndeliveredIsKeep(conf: Conf, wd: World, after: Db, id: string, alloc: string,
                          round: S.Round, page: seq<Candidate>, choice: Option<Candidate>)
    requires Active(wd.db, id) && (round.Unannounced? || round.Unsent? || round.Undeleted?)
    requires S.Justified(wd.db, wd.now, id, wd.db.pools[id].queue, round, page, choice)
    requires S.Stored(conf, wd.db, after, wd.now, wd.db.pools[id].queue, AllocPK(id, alloc), round)
    ensures CanKeep(wd, round.msg, round.w, alloc)
    ensures Happens(conf, wd, Keep(round.msg, round.w, alloc, round.Undeleted?)) == wd.(db := after)
  {
  }

  /** However a round ends, it is an event of the timeline. */
  lemma EveryRoundIsEvent(conf: Conf, wd: World, after: Db, id: string, alloc: string,
                          round: S.Round, page: seq<Candidate>, choice: Option<Candidate>) returns (ev: Event)
    requires Active(wd.db, id)
    requires S.Justified(wd.db, wd.now, id, wd.db.pools[id].queue, round, page, choice)
    requires S.Stored(conf, wd.db, after, wd.now, wd.db.pools[id].queue, AllocPK(id, alloc), round)
    ensures Happens(conf, wd, ev) == wd.(db := after)
  {
    if round.Delivered? {
      ev := Place(round.msg, round.w, alloc);
      DeliveredIsPlace(conf, wd, after, id, alloc, round, page, choice);
    } else if round.Unannounced? || round.Unsent? || round.Undeleted? {
      ev := Keep(round.msg, round.w, alloc, round.Undeleted?);
      UndeliveredIsKeep(conf, wd, after, id, alloc, round, page, choice);
    } else if S.HasClaimed(round) {
      ev := LoseClaim(round.msg, round.w);
      UnrecordedIsLost(conf, wd, after, id, alloc, round, page, choice);
    } else {
      ev := Tick(0);
    }
  }

  lemma UnrecordedIsLost(conf: Conf, wd: World, after: Db, id: string, alloc: string,
                         round: S.Round, page: seq<Candidate>, choice: Option<Candidate>)
    requires Active(wd.db, id) && (round.Collided? || round.Unrecorded?)
    requires S.Justified(wd.db, wd.now, id, wd.db.pools[id].queue, round, page, choice)
    requires S.Stored(conf, wd.db, after, wd.now, wd.db.pools[id].queue, AllocPK(id, alloc), round)
    ensures CanClaim(wd, round.msg, round.w)
    ensures Happens(conf, wd, LoseClaim(round.msg, round.w)) == wd.(db := after)
  {
  }

  ghost function After(conf: Conf, wd: World, events: seq<Event>): World
    decreases |events|
  {
    if events == [] then wd else Happens(conf, After(conf, wd, events[..|events| - 1]), events[|events| - 1])
  }

  // What one event does to one row: whatever holds of all rows follows from these.

  /** The heartbeat of an existing worker of a pool that is not disbanded. */
  predicate Heard(wd: World, w: WorkerPK) {
    w.pool in wd.db.pools && wd.db.pools[w.pool].ttl <= 0 && w in wd.db.workers
  }

  /** Alloc `k` is in the list, and so is no missing one up to there. */
  predicate Reaches(wd: World, pool: string, ids: seq<string>, k: AllocPK) {
    exists i :: 0 <= i < |ids| && k == AllocPK(pool, ids[i])
      && forall j | 0 <= j <= i :: AllocPK(pool, ids[j]) in wd.db.allocs
  }

  /** Creation and heartbeats renew an alloc; a heartbeat up to its first missing alloc, or as
      far as it got. */
  predicate Renews(conf: Conf, wd: World, ev: Event, k: AllocPK) {
    match ev
    case Place(msg, w, alloc) => CanPlace(conf, wd, msg, w, alloc) && k == AllocPK(w.pool, alloc)
    case Keep(msg, w, alloc, told) =>
      CanKeep(wd, msg, w, alloc) && (told ==> WorkerQueue(conf, w) in wd.db.notices) && k == AllocPK(w.pool, alloc)
    case Beat(w, _, ids) => Heard(wd, w) && Reaches(wd, w.pool, ids, k)
    case CutBeat(w, datasets, ids, n, m) =>
      Heard(wd, w) && GotTo(wd.db.allocs, w, datasets, ids, n, m) && Reaches(wd, w.pool, ids[..m], k)
    case _ => false
  }

  lemma PresentReaches(wd: World, pool: string, ids: seq<string>, k: AllocPK)
    ensures Reaches(wd, pool, ids, k) <==> k in Claims(pool, ids[..Present(wd.db.allocs, pool, ids)])
  {
    var n := Present(wd.db.allocs, pool, ids);
    if k in Claims(pool, ids[..n]) {
      var id :| id in ids[..n] && k == AllocPK(pool, id);
      var i :| 0 <= i < n && ids[..n][i] == id;
      assert ids[i] == id;
    }
    if Reaches(wd, pool, ids, k) {
      var i :| 0 <= i < |ids| && k == AllocPK(pool, ids[i]) && forall j | 0 <= j <= i ::
          AllocPK(pool, ids[j]) in wd.db.allocs;
      assert i < n;
      assert ids[..n][i] in ids[..n];
    }
  }

  lemma PrefixReaches(wd: World, pool: string, ids: seq<string>, m: nat, k: AllocPK)
    requires m <= Present(wd.db.allocs, pool, ids)
    ensures Reaches(wd, pool, ids[..m], k) <==> k in Claims(pool, ids[..m])
  {
    if k in Claims(pool, ids[..m]) {
      var id :| id in ids[..m] && k == AllocPK(pool, id);
      var i :| 0 <= i < m && ids[..m][i] == id;
      assert forall j | 0 <= j <= i :: ids[..m][j] == ids[j];
    }
    if Reaches(wd, pool, ids[..m], k) {
      var i :| 0 <= i < m && k == AllocPK(pool, ids[..m][i]);
      assert ids[..m][i] in ids[..m];
    }
  }

  /** A row that is new, or renewed: it has a fresh lease and belongs to an active pool. */
  predicate AllocRenewed(conf: Conf, wd: World, k: AllocPK, row: Alloc) {
    && Active(wd.db, k.pool) && row.ttl == wd.now + conf.allocTTL
    && if k in wd.db.allocs then row == wd.db.allocs[k].(ttl := row.ttl)
       else row.eval.Some? && SizeOf(row) >= 1 && Host(k, row) in wd.db.workers
  }

  predicate AllocFrom(conf: Conf, wd: World, ev: Event, k: AllocPK, row: Alloc) {
    if Renews(conf, wd, ev, k) then AllocRenewed(conf, wd, k, row)
    else k in wd.db.allocs && row == wd.db.allocs[k]
  }

  lemma AllocsSame(conf: Conf, wd: World, ev: Event)
    requires !ev.Beat? && !ev.CutBeat? && !ev.Place? && !ev.Keep?
    requires !ev.Complete? && !ev.CutComplete? && !ev.Sweep? && !ev.CutSweep?
    ensures Effect(conf, wd, ev).allocs == wd.db.allocs
  {
    match ev
    case Tick(_) =>
    case CreatePool(_) =>
    case Register(_, _) =>
    case Disband(_) =>
    case Submit(_, _, _) =>
    case CutCreate(_) =>
    case CutRegister(_) =>
    case CutDisband(_) =>
    case LoseClaim(_, _) =>
  }

  lemma BeatAllocs(conf: Conf, wd: World, ev: Event, k: AllocPK)
    requires (ev.Beat? || ev.CutBeat?) && k in Effect(conf, wd, ev).allocs
    ensures AllocFrom(conf, wd, ev, k, Effect(conf, wd, ev).allocs[k])
  {
    hide Copied, Present, Reaches, Claims;
    if ev.Beat? {
      PresentReaches(wd, ev.w.pool, ev.ids, k);
    } else if GotTo(wd.db.allocs, ev.w, ev.datasets, ev.ids, ev.n, ev.m) {
      PrefixReaches(wd, ev.w.pool, ev.ids, ev.m, k);
      ReachedIn(wd, ev.w.pool, ev.ids[..ev.m], k);
    }
    ReachedIn(wd, ev.w.pool, ev.ids, k);
    ReachedPool(wd, ev.w.pool, ev.ids, k);
    if ev.CutBeat? && ev.m <= |ev.ids| { ReachedPool(wd, ev.w.pool, ev.ids[..ev.m], k); }
  }

  lemma ReachedIn(wd: World, pool: string, ids: seq<string>, k: AllocPK)
    ensures Reaches(wd, pool, ids, k) ==> k in wd.db.allocs
  {
  }

  lemma ReachedPool(wd: World, pool: string, ids: seq<string>, k: AllocPK)
    ensures Reaches(wd, pool, ids, k) ==> k.pool == pool
  {
  }

  lemma PlacedAllocs(conf: Conf, wd: World, ev: Event, k: AllocPK)
    requires (ev.Place? || ev.Keep?) && k in Effect(conf, wd, ev).allocs
    ensures AllocFrom(conf, wd, ev, k, Effect(conf, wd, ev).allocs[k])
  {
    if ev.Place? {
    } else {
    }
  }

  lemma AllocStep(conf: Conf, wd: World, ev: Event, k: AllocPK)
    requires k in Effect(conf, wd, ev).allocs
    ensures AllocFrom(conf, wd, ev, k, Effect(conf, wd, ev).allocs[k])
  {
    match ev
    case Beat(_, _, _) => BeatAllocs(conf, wd, ev, k);
    case CutBeat(_, _, _, _, _) => BeatAllocs(conf, wd, ev, k);
    case Place(_, _, _) => PlacedAllocs(conf, wd, ev, k);
    case Keep(_, _, _, _) => PlacedAllocs(conf, wd, ev, k);
    case Complete(_) =>
    case CutComplete(_) =>
    case Sweep =>
    case CutSweep(_) =>
    case _ => AllocsSame(conf, wd, ev);
  }

  predicate WorkerFrom(conf: Conf, wd: World, w: WorkerPK, row: Worker) {
    || (w in wd.db.workers && row.ttl == wd.db.workers[w].ttl)
    || (Active(wd.db, w.pool) && row.ttl == wd.now + conf.workerTTL && (w in wd.db.workers || IsId(w.worker)))
  }

  lemma WorkersSame(conf: Conf, wd: World, ev: Event)
    requires !ev.Register? && !ev.Beat? && !ev.CutBeat? && !ev.Place? && !ev.Keep? && !ev.LoseClaim?
    requires !ev.Complete? && !ev.Sweep? && !ev.CutSweep?
    ensures Effect(conf, wd, ev).workers == wd.db.workers
  {
    match ev
    case Tick(_) =>
    case CreatePool(_) =>
    case Disband(_) =>
    case Submit(_, _, _) =>
    case CutCreate(_) =>
    case CutRegister(_) =>
    case CutDisband(_) =>
    case CutComplete(_) =>
  }

  lemma WorkerStep(conf: Conf, wd: World, ev: Event, w: WorkerPK)
    requires w in Effect(conf, wd, ev).workers
    ensures WorkerFrom(conf, wd, w, Effect(conf, wd, ev).workers[w])
  {
    match ev
    case Register(_, _) =>
    case Beat(_, _, _) =>
    case CutBeat(_, _, _, _, _) =>
    case Place(_, _, _) =>
    case Keep(_, _, _, _) =>
    case LoseClaim(_, _) =>
    case Complete(_) =>
    case Sweep =>
    case CutSweep(_) =>
    case _ => WorkersSame(conf, wd, ev);
  }

  predicate ReplicaFrom(conf: Conf, wd: World, r: ReplicaPK, ttl: int) {
    || (r in wd.db.replicas && ttl == wd.db.replicas[r])
    || (Active(wd.db, r.pool) && ttl == wd.now + conf.replicaTTL && LastColon(r.replica) >= 0)
  }

  lemma ReplicasSame(conf: Conf, wd: World, ev: Event)
    requires !ev.Beat? && !ev.CutBeat? && !ev.Sweep? && !ev.CutSweep?
    ensures Effect(conf, wd, ev).replicas == wd.db.replicas
  {
    match ev
    case Tick(_) =>
    case CreatePool(_) =>
    case Register(_, _) =>
    case Disband(_) =>
    case Submit(_, _, _) =>
    case Place(_, _, _) =>
    case Complete(_) =>
    case CutCreate(_) =>
    case CutRegister(_) =>
    case CutDisband(_) =>
    case Keep(_, _, _, _) =>
    case LoseClaim(_, _) =>
    case CutComplete(_) =>
  }

  lemma HasColon(dataset: string, worker: string)
    ensures LastColon(ReplicaID(dataset, worker)) >= 0
  {
    assert ReplicaID(dataset, worker)[|dataset|] == ':';
  }

  lemma CopiedFrom(conf: Conf, wd: World, w: WorkerPK, datasets: seq<string>, r: ReplicaPK)
    requires Active(wd.db, w.pool)
    requires r in Copied(wd.db.replicas, w, datasets, wd.now + conf.replicaTTL)
    ensures ReplicaFrom(conf, wd, r, Copied(wd.db.replicas, w, datasets, wd.now + conf.replicaTTL)[r])
  {
    hide LastColon, ReplicaID;
    forall d | d in datasets ensures LastColon(ReplicaID(d, w.worker)) >= 0 {
      HasColon(d, w.worker);
    }
  }

  lemma BeatReplicas(conf: Conf, wd: World, ev: Event, r: ReplicaPK)
    requires (ev.Beat? || ev.CutBeat?) && r in Effect(conf, wd, ev).replicas
    ensures ReplicaFrom(conf, wd, r, Effect(conf, wd, ev).replicas[r])
  {
    hide Copied, Renewed, Claims, LastColon;
    if Beats(wd.db, ev.w) {
      if ev.Beat? {
        CopiedFrom(conf, wd, ev.w, ev.datasets, r);
      } else if GotTo(wd.db.allocs, ev.w, ev.datasets, ev.ids, ev.n, ev.m) {
        CopiedFrom(conf, wd, ev.w, ev.datasets[..ev.n], r);
      }
    }
  }

  lemma ReplicaStep(conf: Conf, wd: World, ev: Event, r: ReplicaPK)
    requires r in Effect(conf, wd, ev).replicas
    ensures ReplicaFrom(conf, wd, r, Effect(conf, wd, ev).replicas[r])
  {
    hide LastColon;
    if ev.Beat? || ev.CutBeat? {
      BeatReplicas(conf, wd, ev, r);
    } else if !ev.Sweep? && !ev.CutSweep? {
      ReplicasSame(conf, wd, ev);
    }
  }

  lemma PoolStep(conf: Conf, wd: World, ev: Event, p: string)
    requires p in wd.db.pools
    ensures p in Effect(conf, wd, ev).pools
    ensures var row := Effect(conf, wd, ev).pools[p]; row == wd.db.pools[p] || row.ttl == wd.now + conf.poolTTL
  {
    match ev
    case Tick(_) =>
    case CreatePool(_) =>
    case Register(_, _) =>
    case Disband(_) =>
    case Beat(_, _, _) =>
    case Submit(_, _, _) =>
    case Place(_, _, _) =>
    case Complete(_) =>
    case Sweep =>
    case CutCreate(_) =>
    case CutRegister(_) =>
    case CutDisband(_) =>
    case CutBeat(_, _, _, _, _) =>
    case Keep(_, _, _, _) =>
    case LoseClaim(_, _) =>
    case CutComplete(_) =>
    case CutSweep(_) =>
  }

  // What holds of all rows at all times.

  predicate AllocSane(db: Db, k: AllocPK)
    requires k in db.allocs
  {
    k.pool in db.pools && Sound(db.allocs[k]) && SizeOf(db.allocs[k]) >= 1
  }

  predicate RowsSane(db: Db) {
    && (forall k | k in db.allocs :: AllocSane(db, k))
    && (forall w | w in db.workers :: w.worker != "")
    && WellFormed(db.replicas)
  }

  predicate RowsBounded(conf: Conf, db: Db, now: int) {
    && (forall k | k in db.allocs :: db.allocs[k].ttl <= now + conf.allocTTL)
    && (forall r | r in db.replicas :: db.replicas[r] <= now + conf.replicaTTL)
    && (forall w | w in db.workers :: db.workers[w].ttl <= now + conf.workerTTL)
  }

  lemma SaneNext(conf: Conf, wd: World, ev: Event)
    requires RowsSane(wd.db)
    ensures RowsSane(Effect(conf, wd, ev))
  {
    var t := Effect(conf, wd, ev);
    hide Effect, LastColon, Renews;
    forall k | k in t.allocs ensures AllocSane(t, k) {
      AllocStep(conf, wd, ev, k);
      assert k in wd.db.allocs ==> AllocSane(wd.db, k);
      PoolStep(conf, wd, ev, k.pool);
    }
    forall w | w in t.workers ensures w.worker != "" {
      WorkerStep(conf, wd, ev, w);
    }
    forall r | r in t.replicas ensures LastColon(r.replica) >= 0 {
      ReplicaStep(conf, wd, ev, r);
    }
  }

  lemma BoundedNext(conf: Conf, wd: World, ev: Event)
    requires RowsBounded(conf, wd.db, wd.now)
    ensures RowsBounded(conf, Happens(conf, wd, ev).db, Happens(conf, wd, ev).now)
  {
    var t := Effect(conf, wd, ev);
    hide Effect, LastColon, Renews;
    forall k | k in t.allocs ensures t.allocs[k].ttl <= wd.now + conf.allocTTL {
      AllocStep(conf, wd, ev, k);
    }
    forall w | w in t.workers ensures t.workers[w].ttl <= wd.now + conf.workerTTL {
      WorkerStep(conf, wd, ev, w);
    }
    forall r | r in t.replicas ensures t.replicas[r] <= wd.now + conf.replicaTTL {
      ReplicaStep(conf, wd, ev, r);
    }
  }

  /** In every run, whatever failed in it: alloc rows are complete and belong to a pool, replica
      ids are made of a dataset, a colon and a worker, and no row's ttl is further away than
      its lease length. */
  lemma {:induction false} SaneAfter(conf: Conf, wd: World, events: seq<Event>)
    requires RowsSane(wd.db) && RowsBounded(conf, wd.db, wd.now)
    ensures var t := After(conf, wd, events); RowsSane(t.db) && RowsBounded(conf, t.db, t.now) && t.now >= wd.now
    decreases |events|
  {
    if events != [] {
      var n := |events| - 1;
      var before := After(conf, wd, events[..n]);
      hide Effect, RowsSane, RowsBounded;
      SaneAfter(conf, wd, events[..n]);
      SaneNext(conf, before, events[n]);
      BoundedNext(conf, before, events[n]);
    }
  }

  lemma WellFormedAfter(conf: Conf, t0: int, events: seq<Event>)
    ensures WellFormed(After(conf, World(EMPTY, t0), events).db.replicas)
  {
    hide Effect, After;
    SaneAfter(conf, World(EMPTY, t0), events);
  }

  // Leases.

  /** When alloc `k` was last renewed: the time of the last event that renews it. */
  ghost function LastRenewal(conf: Conf, wd: World, events: seq<Event>, k: AllocPK): int
    decreases |events|
  {
    if events == [] then wd.now
    else
      var n := |events| - 1;
      var before := After(conf, wd, events[..n]);
      if Renews(conf, before, events[n], k) then before.now else LastRenewal(conf, wd, events[..n], k)
  }

  lemma {:induction false} LeaseAfter(conf: Conf, t0: int, events: seq<Event>, k: AllocPK)
    requires k in After(conf, World(EMPTY, t0), events).db.allocs
    ensures After(conf, World(EMPTY, t0), events).db.allocs[k].ttl
         == LastRenewal(conf, World(EMPTY, t0), events, k) + conf.allocTTL
    decreases |events|
  {
    if events != [] {
      var n := |events| - 1;
      var before := After(conf, World(EMPTY, t0), events[..n]);
      hide Effect, Renews;
      AllocStep(conf, before, events[n], k);
      if !Renews(conf, before, events[n], k) { LeaseAfter(conf, t0, events[..n], k); }
    }
  }

  lemma SweepTakes(conf: Conf, wd: World, k: AllocPK)
    requires k in wd.db.allocs && AllocSane(wd.db, k)
    ensures k !in Happens(conf, wd, Sweep).db.allocs <==> wd.db.allocs[k].ttl < wd.now
  {
  }

  lemma AllocsAreSane(conf: Conf, t0: int, events: seq<Event>, k: AllocPK)
    requires k in After(conf, World(EMPTY, t0), events).db.allocs
    ensures AllocSane(After(conf, World(EMPTY, t0), events).db, k)
  {
    hide Effect, After;
    SaneAfter(conf, World(EMPTY, t0), events);
  }

  /** After any history, failing calls included, a sweep takes an alloc back if and only if
      its last renewal is more than the lease length ago. */
  lemma LeaseExact(conf: Conf, t0: int, events: seq<Event>, k: AllocPK)
    requires k in After(conf, World(EMPTY, t0), events).db.allocs
    ensures var wd := After(conf, World(EMPTY, t0), events);
      k !in Happens(conf, wd, Sweep).db.allocs <==>
          LastRenewal(conf, World(EMPTY, t0), events, k) < wd.now - conf.allocTTL
  {
    hide *;
    LeaseAfter(conf, t0, events, k);
    AllocsAreSane(conf, t0, events, k);
    SweepTakes(conf, After(conf, World(EMPTY, t0), events), k);
  }

  // What a heartbeat is for.

  predicate Ends(ev: Event, k: AllocPK) {
    (ev.Complete? || ev.CutComplete?) && ev.k == k
  }

  lemma AllocStays(conf: Conf, wd: World, ev: Event, k: AllocPK)
    requires k in wd.db.allocs && wd.db.allocs[k].ttl >= wd.now && !Ends(ev, k)
    ensures k in Effect(conf, wd, ev).allocs
  {
    match ev
    case Beat(_, _, _) => BeatKeepsRows(conf, wd, ev);
    case CutBeat(_, _, _, _, _) => BeatKeepsRows(conf, wd, ev);
    case Place(_, _, _) =>
    case Keep(_, _, _, _) =>
    case Complete(_) =>
    case CutComplete(_) =>
    case Sweep =>
    case CutSweep(_) =>
    case _ => AllocsSame(conf, wd, ev);
  }

  lemma BeatKeepsRows(conf: Conf, wd: World, ev: Event)
    requires ev.Beat? || ev.CutBeat?
    ensures Effect(conf, wd, ev).allocs.Keys == wd.db.allocs.Keys
  {
    hide Copied, Present, Claims;
    if ev.Beat? {
    } else {
    }
  }

  lemma {:induction false} LeaseHolds(conf: Conf, wd: World, events: seq<Event>, k: AllocPK, end: int)
    requires k in wd.db.allocs && wd.db.allocs[k].ttl >= end && wd.now + conf.allocTTL >= end
    requires After(conf, wd, events).now <= end && forall i | 0 <= i < |events| :: !Ends(events[i], k)
    ensures var t := After(conf, wd, events); k in t.db.allocs && t.db.allocs[k].ttl >= end && t.now >= wd.now
    decreases |events|
  {
    if events != [] {
      var n := |events| - 1;
      var before := After(conf, wd, events[..n]);
      assert After(conf, wd, events).now >= before.now;
      hide Effect, Renews;
      LeaseHolds(conf, wd, events[..n], k, end);
      AllocStays(conf, before, events[n], k);
      AllocStep(conf, before, events[n], k);
    }
  }

  /** A worker that sends its heartbeat in time keeps its allocs. After any history, an alloc
      that the heartbeat lists before the first missing one is not taken back by any sweep up
      to a full lease later, whatever else happens or fails, unless it is completed. */
  lemma HeartbeatKeeps(conf: Conf, t0: int, first: seq<Event>, w: WorkerPK, datasets: seq<string>, ids: seq<string>,
      i: nat,
      more: seq<Event>)
    requires i < |ids| && var db := After(conf, World(EMPTY, t0), first).db;
      && w.pool in db.pools && db.pools[w.pool].ttl <= 0 && w in db.workers
      && forall j | 0 <= j <= i :: AllocPK(w.pool, ids[j]) in db.allocs
    requires forall j | 0 <= j < |more| :: !Ends(more[j], AllocPK(w.pool, ids[i]))
    requires var wd := After(conf, World(EMPTY, t0), first);
      After(conf, Happens(conf, wd, Beat(w, datasets, ids)), more).now <= wd.now + conf.allocTTL
    ensures var wd := After(conf, World(EMPTY, t0), first);
      AllocPK(w.pool, ids[i]) in After(conf, Happens(conf, wd, Beat(w, datasets, ids)), more).db.allocs
  {
    var wd := After(conf, World(EMPTY, t0), first);
    var k, ev := AllocPK(w.pool, ids[i]), Beat(w, datasets, ids);
    var t := Happens(conf, wd, ev);
    assert Renews(conf, wd, ev, k);
    BeatKeepsRows(conf, wd, ev);
    hide Effect, Renews, After;
    AllocStep(conf, wd, ev, k);
    LeaseHolds(conf, t, more, k, wd.now + conf.allocTTL);
  }

  // What a pool is for, until it is disbanded.

  predicate Closes(ev: Event, p: string) {
    (ev.Disband? || ev.CutDisband?) && ev.pool == p
  }

  /** The pool takes requests: its row is not marked and its queue is there. */
  predicate Open(conf: Conf, db: Db, p: string) {
    p in db.pools && db.pools[p] == Pool(conf.deployment + "-" + p, 0) && conf.deployment + "-" + p in db.evals
  }

  lemma QueuesStay(conf: Conf, wd: World, ev: Event)
    requires !ev.Disband? && !ev.CutDisband?
    ensures wd.db.evals.Keys <= Effect(conf, wd, ev).evals.Keys
    ensures forall p | p in wd.db.pools ::
      p in Effect(conf, wd, ev).pools && Effect(conf, wd, ev).pools[p] == wd.db.pools[p]
  {
    match ev
    case Tick(_) =>
    case CreatePool(_) =>
    case Register(_, _) =>
    case Beat(_, _, _) =>
    case Submit(_, _, _) =>
    case Place(_, _, _) =>
    case Complete(_) =>
    case Sweep =>
    case CutCreate(_) =>
    case CutRegister(_) =>
    case CutBeat(_, _, _, _, _) =>
    case Keep(_, _, _, _) =>
    case LoseClaim(_, _) =>
    case CutComplete(_) =>
    case CutSweep(_) =>
  }

  lemma OpenNext(conf: Conf, wd: World, ev: Event, p: string)
    requires Open(conf, wd.db, p) && !Closes(ev, p)
    ensures Open(conf, Effect(conf, wd, ev), p)
  {
    if ev.Disband? || ev.CutDisband? {
      if PoolQueue(conf, ev.pool) == PoolQueue(conf, p) { PoolQueueDecodes(conf, ev.pool, p); }
    } else {
      QueuesStay(conf, wd, ev);
      hide Effect;
    }
  }

  lemma {:induction false} OpenAfter(conf: Conf, wd: World, events: seq<Event>, p: string)
    requires Open(conf, wd.db, p) && forall i | 0 <= i < |events| :: !Closes(events[i], p)
    ensures Open(conf, After(conf, wd, events).db, p)
    decreases |events|
  {
    if events != [] {
      var n := |events| - 1;
      hide Effect, Open;
      OpenAfter(conf, wd, events[..n], p);
      OpenNext(conf, After(conf, wd, events[..n]), events[n], p);
    }
  }

  /** After any history, a new pool takes evaluations and workers until it is disbanded,
      whatever else happens or fails: an evaluation is queued, once and with no attempts yet, and a
      worker is stored with the capacity it registers and a full lease. */
  lemma PoolWorks(conf: Conf, t0: int, first: seq<Event>, p: string, more: seq<Event>, dataset: string, size: int,
      id: string, capacity: nat)
    requires p !in After(conf, World(EMPTY, t0), first).db.pools && IsId(id)
    requires forall i | 0 <= i < |more| :: !Closes(more[i], p)
    ensures var wd := After(conf, Happens(conf, After(conf, World(EMPTY, t0), first), CreatePool(p)), more);
      var q, n, w := conf.deployment + "-" + p, conf.deployment + "-" + p + "-" + id, WorkerPK(p, id);
      var submitted, registered := Effect(conf, wd, Submit(p, dataset, size)), Effect(conf, wd, Register(w, capacity));
      && q in wd.db.evals
      && submitted == wd.db.(evals := wd.db.evals[q := wd.db.evals[q] + multiset{Eval(dataset, size, 0)}])
      && registered.workers == wd.db.workers[w := Worker(capacity, n, wd.now + conf.workerTTL)]
      && n in registered.notices && registered.evals == wd.db.evals && registered.allocs == wd.db.allocs
  {
    hide *;
    var before := After(conf, World(EMPTY, t0), first);
    var created := Happens(conf, before, CreatePool(p));
    CreatedIsOpen(conf, before, p);
    OpenAfter(conf, created, more, p);
    var wd := After(conf, created, more);
    OpenSubmits(conf, wd, p, dataset, size);
    OpenRegisters(conf, wd, WorkerPK(p, id), capacity);
  }

  lemma CreatedIsOpen(conf: Conf, wd: World, p: string)
    requires p !in wd.db.pools
    ensures Open(conf, Happens(conf, wd, CreatePool(p)).db, p)
  {
  }

  lemma OpenSubmits(conf: Conf, wd: World, p: string, dataset: string, size: int)
    requires Open(conf, wd.db, p)
    ensures conf.deployment + "-" + p in wd.db.evals
    ensures var q := conf.deployment + "-" + p;
      Effect(conf, wd, Submit(p, dataset, size))
        == wd.db.(evals := wd.db.evals[q := wd.db.evals[q] + multiset{Eval(dataset, size, 0)}])
  {
  }

  lemma OpenRegisters(conf: Conf, wd: World, w: WorkerPK, capacity: nat)
    requires Open(conf, wd.db, w.pool) && IsId(w.worker)
    ensures var n := conf.deployment + "-" + w.pool + "-" + w.worker;
      var t := Effect(conf, wd, Register(w, capacity));
      && t.workers == wd.db.workers[w := Worker(capacity, n, wd.now + conf.workerTTL)]
      && n in t.notices && t.evals == wd.db.evals && t.allocs == wd.db.allocs
  {
  }

  // Draining a disbanded pool.

  predicate Shut(db: Db, p: string) {
    p in db.pools && Disbanded(db.pools[p])
  }

  predicate AllocsEnd(db: Db, p: string, end: int) {
    forall k | k in db.allocs && k.pool == p :: db.allocs[k].ttl <= end
  }

  predicate ReplicasEnd(db: Db, p: string, end: int) {
    forall r | r in db.replicas && r.pool == p :: db.replicas[r] <= end
  }

  predicate WorkersEnd(db: Db, p: string, end: int) {
    forall w | w in db.workers && w.pool == p :: db.workers[w].ttl <= end
  }

  /** Pool `p` was disbanded at time `d`: no row of it outlives that time by more than a lease. */
  predicate Closing(conf: Conf, db: Db, p: string, d: int) {
    && Shut(db, p) && AllocsEnd(db, p, d + conf.allocTTL)
    && ReplicasEnd(db, p, d + conf.replicaTTL) && WorkersEnd(db, p, d + conf.workerTTL)
  }

  predicate Vacant(db: Db, p: string) {
    && Shut(db, p)
    && (forall k | k in db.allocs :: k.pool != p)
    && (forall r | r in db.replicas :: r.pool != p)
    && (forall w | w in db.workers :: w.pool != p)
  }

  lemma ClosingNext(conf: Conf, wd: World, ev: Event, p: string, d: int)
    requires Closing(conf, wd.db, p, d) && wd.now + conf.poolTTL > 0
    ensures Closing(conf, Effect(conf, wd, ev), p, d)
  {
    var t := Effect(conf, wd, ev);
    hide Effect, LastColon, Renews;
    PoolStep(conf, wd, ev, p);
    forall k | k in t.allocs && k.pool == p ensures t.allocs[k].ttl <= d + conf.allocTTL {
      AllocStep(conf, wd, ev, k);
    }
    forall w | w in t.workers && w.pool == p ensures t.workers[w].ttl <= d + conf.workerTTL {
      WorkerStep(conf, wd, ev, w);
    }
    forall r | r in t.replicas && r.pool == p ensures t.replicas[r] <= d + conf.replicaTTL {
      ReplicaStep(conf, wd, ev, r);
    }
  }

  lemma VacantNext(conf: Conf, wd: World, ev: Event, p: string)
    requires Vacant(wd.db, p) && wd.now + conf.poolTTL > 0
    ensures Vacant(Effect(conf, wd, ev), p)
  {
    var t := Effect(conf, wd, ev);
    hide Effect, LastColon, Renews;
    PoolStep(conf, wd, ev, p);
    forall k | k in t.allocs ensures k.pool != p { AllocStep(conf, wd, ev, k); }
    forall w | w in t.workers ensures w.pool != p { WorkerStep(conf, wd, ev, w); }
    forall r | r in t.replicas ensures r.pool != p { ReplicaStep(conf, wd, ev, r); }
  }

  lemma {:induction false} ClosingAfter(conf: Conf, wd: World, events: seq<Event>, p: string, d: int)
    requires Closing(conf, wd.db, p, d) && wd.now + conf.poolTTL > 0 && RowsSane(wd.db)
    ensures var t := After(conf, wd, events); Closing(conf, t.db, p, d) && RowsSane(t.db) && t.now >= wd.now
    decreases |events|
  {
    if events != [] {
      var n := |events| - 1;
      hide Effect, Closing, RowsSane;
      ClosingAfter(conf, wd, events[..n], p, d);
      ClosingNext(conf, After(conf, wd, events[..n]), events[n], p, d);
      SaneNext(conf, After(conf, wd, events[..n]), events[n]);
    }
  }

  lemma {:induction false} VacantAfter(conf: Conf, wd: World, events: seq<Event>, p: string)
    requires Vacant(wd.db, p) && wd.now + conf.poolTTL > 0
    ensures Vacant(After(conf, wd, events).db, p) && After(conf, wd, events).now >= wd.now
    decreases |events|
  {
    if events != [] {
      var n := |events| - 1;
      hide Effect, Vacant;
      VacantAfter(conf, wd, events[..n], p);
      VacantNext(conf, After(conf, wd, events[..n]), events[n], p);
    }
  }

  function Longest(conf: Conf): int {
    var m := if conf.allocTTL > conf.replicaTTL then conf.allocTTL else conf.replicaTTL;
    if m > conf.workerTTL then m else conf.workerTTL
  }

  /** After any history in which pool `p` is disbanded at time `d`, and whatever happens or
      fails then, a sweep without failing calls later than `d` plus the longest lease leaves the pool without allocs,
      replicas and workers, and it stays so and stays disbanded for ever. */
  lemma PoolDrains(conf: Conf, t0: int, first: seq<Event>, p: string, middle: seq<Event>, last: seq<Event>)
    requires var wd := After(conf, World(EMPTY, t0), first); p in wd.db.pools && wd.now + conf.poolTTL > 0
    requires var wd := After(conf, World(EMPTY, t0), first);
      After(conf, Happens(conf, wd, Disband(p)), middle).now > wd.now + Longest(conf)
    ensures var closed := Happens(conf, After(conf, World(EMPTY, t0), first), Disband(p));
      var swept := Happens(conf, After(conf, closed, middle), Sweep);
      Vacant(After(conf, swept, last).db, p)
  {
    var wd := After(conf, World(EMPTY, t0), first);
    SaneAfter(conf, World(EMPTY, t0), first);
    var closed := Happens(conf, wd, Disband(p));
    SaneNext(conf, wd, Disband(p));
    assert Closing(conf, closed.db, p, wd.now);
    hide Effect, Closing, RowsSane, Vacant;
    ClosingAfter(conf, closed, middle, p, wd.now);
    var late := After(conf, closed, middle);
    SweepVacates(conf, late, p, wd.now);
    VacantAfter(conf, Happens(conf, late, Sweep), last, p);
  }

  lemma SweepVacates(conf: Conf, wd: World, p: string, d: int)
    requires Closing(conf, wd.db, p, d) && RowsSane(wd.db) && wd.now > d + Longest(conf)
    ensures Vacant(Happens(conf, wd, Sweep).db, p)
  {
    assert forall k | k in wd.db.allocs :: AllocSane(wd.db, k);
  }
}
