/** Retries end: how many scheduling, expiry and completion steps a number of submitted
    evaluations can cause at most. */
module Effort {
  import opened Types
  import opened Names
  import opened Sums
  import opened Tables
  import opened Sweeping
  import opened Timeline

  /** Steps a queued eval can still cause: every attempt is placed once and ends once. */
  function ToCome(conf: Conf, e: Eval): int {
    2 * (Attempts(conf) - e.retry)
  }

  ghost function Pending(conf: Conf, b: multiset<Eval>): int
    decreases |b|
  {
    if b == multiset{} then 0 else var e :| e in b; ToCome(conf, e) + Pending(conf, b - multiset{e})
  }

  lemma TakeTwo(b: multiset<Eval>, d: Eval, e: Eval)
    requires d in b && e in b && d != e
    ensures b - multiset{d} - multiset{e} == b - multiset{e} - multiset{d}
    ensures e in b - multiset{d} && d in b - multiset{e}
    ensures |b - multiset{d}| < |b| && |b - multiset{e}| < |b|
  {
  }

  lemma {:induction false} PendingAt(conf: Conf, b: multiset<Eval>, e: Eval)
    requires e in b
    ensures Pending(conf, b) == ToCome(conf, e) + Pending(conf, b - multiset{e})
    decreases |b|
  {
    var d :| d in b && Pending(conf, b) == ToCome(conf, d) + Pending(conf, b - multiset{d});
    if d != e {
      TakeTwo(b, d, e);
      PendingAt(conf, b - multiset{d}, e);
      PendingAt(conf, b - multiset{e}, d);
    }
  }

  lemma PendingAdd(conf: Conf, b: multiset<Eval>, e: Eval)
    ensures Pending(conf, b + multiset{e}) == Pending(conf, b) + ToCome(conf, e)
  {
    assert e in b + multiset{e};
    assert b + multiset{e} - multiset{e} == b;
    PendingAt(conf, b + multiset{e}, e);
  }

  ghost function PendingByQueue(conf: Conf, evals: map<string, multiset<Eval>>): map<string, int> {
    map q | q in evals :: Pending(conf, evals[q])
  }

  /** A running alloc can still cause the steps of its eval's further attempts, and its end. */
  function StepsLeft(conf: Conf, row: Alloc): int {
    if row.eval.Some? then ToCome(conf, row.eval.value) + 1 else 0
  }

  function Running(conf: Conf, allocs: map<AllocPK, Alloc>): map<AllocPK, int> {
    map k | k in allocs :: StepsLeft(conf, allocs[k])
  }

  ghost function Outstanding(conf: Conf, db: Db): int {
    Total(PendingByQueue(conf, db.evals)) + Total(Running(conf, db.allocs))
  }

  // The retry bounds, at the grain of requests.

  predicate EvalsCounted(conf: Conf, evals: map<string, multiset<Eval>>) {
    forall q, e | q in evals && e in evals[q] :: 0 <= e.retry < Attempts(conf)
  }

  predicate AllocsCounted(conf: Conf, allocs: map<AllocPK, Alloc>) {
    forall k | k in allocs :: allocs[k].eval.Some? && 1 <= allocs[k].eval.value.retry <= Attempts(conf)
  }

  predicate Counted(conf: Conf, db: Db) {
    EvalsCounted(conf, db.evals) && AllocsCounted(conf, db.allocs)
  }

  lemma {:induction false} PendingPositive(conf: Conf, b: multiset<Eval>)
    requires forall e | e in b :: 0 <= e.retry < Attempts(conf)
    ensures Pending(conf, b) >= 0
    decreases |b|
  {
    if b != multiset{} {
      var e :| e in b;
      PendingAt(conf, b, e);
      assert |b - multiset{e}| < |b|;
      PendingPositive(conf, b - multiset{e});
    }
  }

  lemma OutstandingPositive(conf: Conf, db: Db)
    requires Counted(conf, db)
    ensures Outstanding(conf, db) >= 0
  {
    forall q | q in db.evals ensures PendingByQueue(conf, db.evals)[q] >= 0 {
      PendingPositive(conf, db.evals[q]);
    }
    TotalPositive(PendingByQueue(conf, db.evals));
    TotalPositive(Running(conf, db.allocs));
  }

  // How single changes move the sums.

  lemma QueueSet(conf: Conf, evals: map<string, multiset<Eval>>, q: string, b: multiset<Eval>)
    ensures Total(PendingByQueue(conf, evals[q := b]))
         == Total(PendingByQueue(conf, evals)) - (if q in evals then Pending(conf, evals[q]) else 0) + Pending(conf, b)
  {
    assert PendingByQueue(conf, evals[q := b]) == PendingByQueue(conf, evals)[q := Pending(conf, b)];
    TotalSet(PendingByQueue(conf, evals), q, Pending(conf, b));
  }

  lemma QueueGone(conf: Conf, evals: map<string, multiset<Eval>>, q: string)
    requires EvalsCounted(conf, evals)
    ensures Total(PendingByQueue(conf, evals - {q})) <= Total(PendingByQueue(conf, evals))
  {
    assert PendingByQueue(conf, evals - {q}) == PendingByQueue(conf, evals) - {q};
    TotalWithout(PendingByQueue(conf, evals), q);
    if q in evals { PendingPositive(conf, evals[q]); }
  }

  lemma AllocGone(conf: Conf, allocs: map<AllocPK, Alloc>, k: AllocPK)
    requires k in allocs
    ensures Total(Running(conf, allocs - {k})) == Total(Running(conf, allocs)) - StepsLeft(conf, allocs[k])
  {
    assert Running(conf, allocs - {k}) == Running(conf, allocs) - {k};
    TotalWithout(Running(conf, allocs), k);
  }

  lemma AllocNew(conf: Conf, allocs: map<AllocPK, Alloc>, k: AllocPK, row: Alloc)
    requires k !in allocs
    ensures Total(Running(conf, allocs[k := row])) == Total(Running(conf, allocs)) + StepsLeft(conf, row)
  {
    assert Running(conf, allocs[k := row]) == Running(conf, allocs)[k := StepsLeft(conf, row)];
    TotalSet(Running(conf, allocs), k, StepsLeft(conf, row));
  }

  /** An expiry costs one step, whether the eval is requeued, dropped or dead-lettered. If the
      row stays, it is one more evaluation's worth of work at most. */
  lemma ExpiryCosts(conf: Conf, db: Db, k: AllocPK, removed: bool, credited: bool)
    requires Counted(conf, db) && k in db.allocs && k.pool in db.pools
    ensures var t := AfterOne(conf, db, k, db.allocs[k], removed, credited);
      Counted(conf, t) && Outstanding(conf, t) + 1 <= Outstanding(conf, db) + if removed then 0 else 2 * Attempts(conf)
  {
    var e := db.allocs[k].eval.value;
    var q := db.pools[k.pool].queue;
    AllocGone(conf, db.allocs, k);
    if !Spent(conf, e) && q in db.evals {
      QueueSet(conf, db.evals, q, db.evals[q] + multiset{e});
      PendingAdd(conf, db.evals[q], e);
    }
  }

  /** A sweep that sent the evals of `ks` on and got this far with their rows. */
  function SentOf(ks: set<AllocPK>, removed: set<AllocPK>, credited: set<AllocPK>): Swept {
    NOTHING_SWEPT.(sent := ks, removed := ks * removed, credited := ks * credited)
  }

  lemma OneMoreOf(conf: Conf, db: Db, ks: set<AllocPK>, removed: set<AllocPK>, credited: set<AllocPK>, k: AllocPK)
    requires k in ks && k in db.allocs && credited <= removed
    ensures Both(SentOf(ks - {k}, removed, credited), ForOne(k, k in removed, k in credited))
      == SentOf(ks, removed, credited)
    ensures AllocsOnly(SentOf(ks - {k}, removed, credited)) && k !in SentOf(ks - {k}, removed, credited).sent
    ensures var cur := AfterSweep(conf, db, SentOf(ks - {k}, removed, credited));
      k in cur.allocs && cur.allocs[k] == db.allocs[k] && cur.pools == db.pools
  {
    assert ks - {k} + {k} == ks;
    assert ks * removed == (ks - {k}) * removed + Once(k, k in removed);
    assert ks * credited == (ks - {k}) * credited + Once(k, k in credited);
  }

  lemma OneFewer(ks: set<AllocPK>, removed: set<AllocPK>, k: AllocPK)
    requires k in ks
    ensures |ks| == |ks - {k}| + 1
    ensures |ks - removed| == |ks - {k} - removed| + if k in removed then 0 else 1
  {
    if k in removed {
      assert ks - removed == ks - {k} - removed;
    } else {
      assert ks - removed == (ks - {k} - removed) + {k};
    }
  }

  /** Sweeping a set of allocs costs a step for each; each row that stays is one more
      evaluation's worth of work at most. */
  lemma {:induction false} ExpiriesCost(conf: Conf, db: Db, ks: set<AllocPK>, removed: set<AllocPK>,
      credited: set<AllocPK>)
    requires Counted(conf, db) && credited <= removed
    requires forall k | k in ks :: k in db.allocs && Sound(db.allocs[k]) && k.pool in db.pools
    ensures var t := AfterSweep(conf, db, SentOf(ks, removed, credited));
      Counted(conf, t) && Outstanding(conf, t) + |ks| <= Outstanding(conf, db) + 2 * Attempts(conf) * |ks - removed|
    decreases ks
  {
    if ks == {} {
      assert SentOf(ks, removed, credited) == NOTHING_SWEPT && ks - removed == {};
      NothingChanges(conf, db);
    } else {
      hide AfterSweep, AfterOne, Both, SentOf, ForOne, AllocsOnly, Counted, Outstanding, Attempts;
      var k :| k in ks;
      var rest := ks - {k};
      ExpiriesCost(conf, db, rest, removed, credited);
      var cur := AfterSweep(conf, db, SentOf(rest, removed, credited));
      OneMoreOf(conf, db, ks, removed, credited, k);
      OneMoreAlloc(conf, db, cur, SentOf(rest, removed, credited), k, db.allocs[k], k in removed, k in credited);
      ExpiryCosts(conf, cur, k, k in removed, k in credited);
      OneFewer(ks, removed, k);
      Budget(Attempts(conf), |rest - removed|, if k in removed then 0 else 1);
    }
  }

  lemma Budget(m: int, n: int, more: int)
    ensures 2 * m * (n + more) == 2 * m * n + 2 * m * more
  {
  }

  lemma PartCosts(conf: Conf, wd: World, done: Swept)
    requires Counted(conf, wd.db) && RowsSane(wd.db) && PartOf(done, Work(wd.db, wd.db.pools.Keys, wd.now))
    ensures var t := AfterSweep(conf, wd.db, done);
      && Counted(conf, t)
      && Outstanding(conf, t) + |done.sent|
         <= Outstanding(conf, wd.db) + 2 * Attempts(conf) * |done.sent - done.removed|
  {
    var allocs := SentOf(done.sent, done.removed, done.credited);
    ExpiriesCost(conf, wd.db, done.sent, done.removed, done.credited);
    assert allocs.removed == done.removed;
    SameCosts(conf, AfterSweep(conf, wd.db, done), AfterSweep(conf, wd.db, allocs));
  }

  lemma SameCosts(conf: Conf, a: Db, b: Db)
    requires a.evals == b.evals && a.allocs == b.allocs
    ensures Counted(conf, a) == Counted(conf, b) && Outstanding(conf, a) == Outstanding(conf, b)
  {
  }

  lemma SweepCosts(conf: Conf, wd: World)
    requires Counted(conf, wd.db) && RowsSane(wd.db)
    ensures var t := Effect(conf, wd, Sweep);
      && Counted(conf, t)
      && Outstanding(conf, t) + |Due(wd.db.allocs, wd.db.pools.Keys, wd.now)| <= Outstanding(conf, wd.db)
  {
    var work := Work(wd.db, wd.db.pools.Keys, wd.now);
    assert work.sent == work.removed == Due(wd.db.allocs, wd.db.pools.Keys, wd.now);
    assert Effect(conf, wd, Sweep) == AfterSweep(conf, wd.db, work);
    assert PartOf(work, work) && work.sent - work.removed == {};
    hide Effect, AfterSweep, Counted, Outstanding, Attempts, RowsSane, Work, Due;
    PartCosts(conf, wd, work);
  }

  // Counting.

  /** Scheduling, expiry and completion steps of one event. */
  ghost function StepsOf(conf: Conf, wd: World, ev: Event): nat {
    match ev
    case Place(msg, w, alloc) => if CanPlace(conf, wd, msg, w, alloc) then 1 else 0
    case Keep(msg, w, alloc, told) => if Keeps(conf, wd, ev) then 1 else 0
    case Complete(k) => if Completable(wd.db, k) then 1 else 0
    case CutComplete(k) => if Completable(wd.db, k) then 1 else 0
    case Sweep => |Due(wd.db.allocs, wd.db.pools.Keys, wd.now)|
    case CutSweep(done) => if Sweeps(wd, done) then |done.sent| else 0
    case _ => 0
  }

  /** A round that places an alloc and leaves its message in the queue. */
  predicate Keeps(conf: Conf, wd: World, ev: Event) {
    ev.Keep? && CanKeep(wd, ev.msg, ev.w, ev.alloc) && (ev.told ==> WorkerQueue(conf, ev.w) in wd.db.notices)
  }

  predicate Sweeps(wd: World, done: Swept) {
    PartOf(done, Work(wd.db, wd.db.pools.Keys, wd.now))
  }

  /** Copies of an eval that an event makes: the message of a round stays although its alloc was
      recorded, or the row of an expired alloc stays although its eval was sent on. */
  function CopiesOf(conf: Conf, wd: World, ev: Event): nat {
    match ev
    case Keep(_, _, _, _) => if Keeps(conf, wd, ev) then 1 else 0
    case CutSweep(done) => if Sweeps(wd, done) then |done.sent - done.removed| else 0
    case _ => 0
  }

  predicate Accepts(wd: World, ev: Event) {
    ev.Submit? && Active(wd.db, ev.pool) && wd.db.pools[ev.pool].queue in wd.db.evals
  }

  ghost function Steps(conf: Conf, wd: World, events: seq<Event>): nat
    decreases |events|
  {
    if events == [] then 0
    else
      var n := |events| - 1;
      Steps(conf, wd, events[..n]) + StepsOf(conf, After(conf, wd, events[..n]), events[n])
  }

  ghost function Accepted(conf: Conf, wd: World, events: seq<Event>): nat
    decreases |events|
  {
    if events == [] then 0
    else
      var n := |events| - 1;
      Accepted(conf, wd, events[..n]) + (if Accepts(After(conf, wd, events[..n]), events[n]) then 1 else 0)
  }

  ghost function Copies(conf: Conf, wd: World, events: seq<Event>): nat
    decreases |events|
  {
    if events == [] then 0
    else
      var n := |events| - 1;
      Copies(conf, wd, events[..n]) + CopiesOf(conf, After(conf, wd, events[..n]), events[n])
  }

  lemma TakeOne(conf: Conf, evals: map<string, multiset<Eval>>, q: string, e: Eval)
    requires q in evals && e in evals[q] && EvalsCounted(conf, evals)
    ensures var t := evals[q := evals[q] - multiset{e}];
      EvalsCounted(conf, t) && Total(PendingByQueue(conf, t)) == Total(PendingByQueue(conf, evals)) - ToCome(conf, e)
  {
    QueueSet(conf, evals, q, evals[q] - multiset{e});
    PendingAt(conf, evals[q], e);
  }

  lemma MoveCosts(conf: Conf, db: Db, after: Db, q: string, msg: Eval, k: AllocPK, row: Alloc)
    requires Counted(conf, db) && q in db.evals && msg in db.evals[q] && k !in db.allocs
    requires row.eval == Some(Attempted(Normalised(msg)))
    requires after.allocs == db.allocs[k := row] && after.evals == db.evals[q := db.evals[q] - multiset{msg}]
    ensures Counted(conf, after) && Outstanding(conf, after) == Outstanding(conf, db) - 1
  {
    AllocNew(conf, db.allocs, k, row);
    TakeOne(conf, db.evals, q, msg);
  }

  lemma PlaceCosts(conf: Conf, wd: World, msg: Eval, w: WorkerPK, alloc: string)
    requires Counted(conf, wd.db) && CanPlace(conf, wd, msg, w, alloc)
    ensures var t := Effect(conf, wd, Place(msg, w, alloc));
      Counted(conf, t) && Outstanding(conf, t) == Outstanding(conf, wd.db) - 1
  {
    var row := Alloc(wd.now + conf.allocTTL, w.worker, Some(Attempted(Normalised(msg))));
    var t := Effect(conf, wd, Place(msg, w, alloc));
    MoveCosts(conf, wd.db, t, wd.db.pools[w.pool].queue, msg, AllocPK(w.pool, alloc), row);
  }

  lemma KeepCosts(conf: Conf, wd: World, ev: Event)
    requires Counted(conf, wd.db) && Keeps(conf, wd, ev)
    ensures var t := Effect(conf, wd, ev);
      Counted(conf, t) && Outstanding(conf, t) + 1 <= Outstanding(conf, wd.db) + 2 * Attempts(conf)
  {
    var k, q := AllocPK(ev.w.pool, ev.alloc), wd.db.pools[ev.w.pool].queue;
    var row := Alloc(wd.now + conf.allocTTL, ev.w.worker, Some(Attempted(Normalised(ev.msg))));
    var t := Effect(conf, wd, ev);
    assert t.allocs == wd.db.allocs[k := row] && t.evals == wd.db.evals;
    assert q in wd.db.evals && ev.msg in wd.db.evals[q];
    AllocNew(conf, wd.db.allocs, k, row);
  }

  lemma SubmitCosts(conf: Conf, wd: World, ev: Event)
    requires Counted(conf, wd.db) && Accepts(wd, ev)
    ensures var t := Effect(conf, wd, ev);
      Counted(conf, t) && Outstanding(conf, t) == Outstanding(conf, wd.db) + 2 * Attempts(conf)
  {
    var e, q := Eval(ev.dataset, ev.size, 0), wd.db.pools[ev.pool].queue;
    assert Effect(conf, wd, ev) == wd.db.(evals := wd.db.evals[q := wd.db.evals[q] + multiset{e}]);
    hide Effect, PendingByQueue, Pending, Running;
    QueueSet(conf, wd.db.evals, q, wd.db.evals[q] + multiset{e});
    PendingAdd(conf, wd.db.evals[q], e);
  }

  lemma CompleteCosts(conf: Conf, wd: World, k: AllocPK, after: Db)
    requires Counted(conf, wd.db) && Completable(wd.db, k)
    requires after.allocs == wd.db.allocs - {k} && after.evals == wd.db.evals
    ensures Counted(conf, after) && Outstanding(conf, after) + 1 <= Outstanding(conf, wd.db)
  {
    AllocGone(conf, wd.db.allocs, k);
  }

  /** Heartbeats move no work. */
  lemma BeatCosts(conf: Conf, wd: World, ev: Event)
    requires Counted(conf, wd.db) && (ev.Beat? || ev.CutBeat?)
    ensures var t := Effect(conf, wd, ev); Counted(conf, t) && Outstanding(conf, t) == Outstanding(conf, wd.db)
  {
    var t := Effect(conf, wd, ev);
    BeatKeeps(conf, wd, ev);
    hide Effect;
    assert Running(conf, t.allocs) == Running(conf, wd.db.allocs);
  }

  lemma BeatKeeps(conf: Conf, wd: World, ev: Event)
    requires ev.Beat? || ev.CutBeat?
    ensures var t := Effect(conf, wd, ev);
      && t.evals == wd.db.evals && t.allocs.Keys == wd.db.allocs.Keys
      && forall k | k in t.allocs :: t.allocs[k].eval == wd.db.allocs[k].eval
  {
    hide Copied, Claims, Present;
    if ev.Beat? {
    } else {
    }
  }

  lemma NewQueueCosts(conf: Conf, db: Db, after: Db, q: string)
    requires Counted(conf, db) && after.allocs == db.allocs
    requires after.evals == db.evals || (q !in db.evals && after.evals == db.evals[q := multiset{}])
    ensures Counted(conf, after) && Outstanding(conf, after) == Outstanding(conf, db)
  {
    hide PendingByQueue, Running;
    if after.evals != db.evals {
      QueueSet(conf, db.evals, q, multiset{});
    }
  }

  lemma CreateTables(conf: Conf, db: Db, pool: string)
    ensures var q, t := PoolQueue(conf, pool), CreatedPool(conf, db, pool);
      t.allocs == db.allocs && (t.evals == db.evals || (q !in db.evals && t.evals == db.evals[q := multiset{}]))
  {
    if PoolQueue(conf, pool) in db.evals {
    } else {
    }
  }

  lemma GoneQueueCosts(conf: Conf, db: Db, after: Db, q: string)
    requires Counted(conf, db) && after.allocs == db.allocs && after.evals == db.evals - {q}
    ensures Counted(conf, after) && Outstanding(conf, after) <= Outstanding(conf, db)
  {
    QueueGone(conf, db.evals, q);
  }

  /** Work that an event adds: a new evaluation, or copies of one. */
  function AddedBy(conf: Conf, wd: World, ev: Event): nat {
    (if Accepts(wd, ev) then 1 else 0) + CopiesOf(conf, wd, ev)
  }

  /** Requests that touch neither evals nor allocs. */
  lemma IdleEvent(conf: Conf, wd: World, ev: Event)
    requires ev.Tick? || ev.Register? || ev.CutRegister? || ev.LoseClaim?
    ensures Effect(conf, wd, ev).allocs == wd.db.allocs && Effect(conf, wd, ev).evals == wd.db.evals
  {
    match ev
    case Tick(_) =>
    case Register(_, _) =>
    case CutRegister(_) =>
    case LoseClaim(_, _) =>
  }

  /** The event took this many steps and added this much work. */
  ghost predicate Paid(conf: Conf, before: Db, after: Db, steps: nat, added: nat) {
    Counted(conf, after) && Outstanding(conf, after) + steps <= Outstanding(conf, before) + 2 * Attempts(conf) * added
  }

  lemma RoundCosts(conf: Conf, wd: World, ev: Event)
    requires Counted(conf, wd.db) && (ev.Place? || ev.Keep?)
    ensures Paid(conf, wd.db, Effect(conf, wd, ev), StepsOf(conf, wd, ev), AddedBy(conf, wd, ev))
  {
    hide Counted, Outstanding, Attempts;
    if ev.Place? && CanPlace(conf, wd, ev.msg, ev.w, ev.alloc) {
      PlaceCosts(conf, wd, ev.msg, ev.w, ev.alloc);
    }
    if Keeps(conf, wd, ev) {
      KeepCosts(conf, wd, ev);
    }
  }

  lemma ReleaseCosts(conf: Conf, wd: World, ev: Event)
    requires Counted(conf, wd.db) && RowsSane(wd.db) && (ev.Complete? || ev.CutComplete? || ev.Sweep? || ev.CutSweep?)
    ensures Paid(conf, wd.db, Effect(conf, wd, ev), StepsOf(conf, wd, ev), AddedBy(conf, wd, ev))
  {
    hide Counted, Outstanding, Attempts, RowsSane;
    match ev
    case Complete(k) => if Completable(wd.db, k) { CompleteCosts(conf, wd, k, Effect(conf, wd, ev)); }
    case CutComplete(k) => if Completable(wd.db, k) { CompleteCosts(conf, wd, k, Effect(conf, wd, ev)); }
    case Sweep => SweepCosts(conf, wd);
    case CutSweep(done) => if Sweeps(wd, done) { PartCosts(conf, wd, done); }
  }

  lemma QueueEventCosts(conf: Conf, wd: World, ev: Event)
    requires Counted(conf, wd.db) && (ev.CreatePool? || ev.CutCreate? || ev.Disband? || ev.CutDisband?)
    ensures Paid(conf, wd.db, Effect(conf, wd, ev), 0, 0)
  {
    hide Counted, Outstanding, Attempts;
    match ev
    case CreatePool(pool) =>
      CreateTables(conf, wd.db, pool);
      NewQueueCosts(conf, wd.db, Effect(conf, wd, ev), PoolQueue(conf, pool));
    case CutCreate(pool) => NewQueueCosts(conf, wd.db, Effect(conf, wd, ev), PoolQueue(conf, pool));
    case Disband(pool) => GoneQueueCosts(conf, wd.db, Effect(conf, wd, ev), PoolQueue(conf, pool));
    case CutDisband(pool) => GoneQueueCosts(conf, wd.db, Effect(conf, wd, ev), PoolQueue(conf, pool));
  }

  lemma OtherCosts(conf: Conf, wd: World, ev: Event)
    requires Counted(conf, wd.db)
    requires (ev.Submit? || ev.Beat? || ev.CutBeat? || ev.Tick? || ev.Register? || ev.CutRegister? || ev.LoseClaim?)
    ensures Paid(conf, wd.db, Effect(conf, wd, ev), 0, if Accepts(wd, ev) then 1 else 0)
  {
    hide Counted, Outstanding, Attempts;
    if ev.Submit? {
      if Accepts(wd, ev) { SubmitCosts(conf, wd, ev); }
    } else if ev.Beat? || ev.CutBeat? {
      BeatCosts(conf, wd, ev);
    } else {
      IdleEvent(conf, wd, ev);
      SameCosts(conf, wd.db, Effect(conf, wd, ev));
    }
  }

  /** Every event lowers the outstanding work by the steps it takes, except for what it adds. */
  lemma EventCosts(conf: Conf, wd: World, ev: Event)
    requires Counted(conf, wd.db) && RowsSane(wd.db)
    ensures Paid(conf, wd.db, Effect(conf, wd, ev), StepsOf(conf, wd, ev), AddedBy(conf, wd, ev))
  {
    hide Counted, Effect, Paid, RowsSane;
    if ev.Place? || ev.Keep? {
      RoundCosts(conf, wd, ev);
    } else if ev.Complete? || ev.CutComplete? || ev.Sweep? || ev.CutSweep? {
      ReleaseCosts(conf, wd, ev);
    } else if ev.CreatePool? || ev.CutCreate? || ev.Disband? || ev.CutDisband? {
      QueueEventCosts(conf, wd, ev);
    } else {
      OtherCosts(conf, wd, ev);
    }
  }

  lemma Sum(before: int, after: int, steps: int, now: int, m: int, n: int, more: int)
    requires before + steps <= 2 * m * n && after + now <= before + 2 * m * more
    ensures after + (steps + now) <= 2 * m * (n + more)
  {
    Budget(m, n, more);
  }

  lemma NothingOutstanding(conf: Conf)
    ensures Counted(conf, EMPTY) && Outstanding(conf, EMPTY) == 0
  {
    assert PendingByQueue(conf, EMPTY.evals) == map[] && Running(conf, EMPTY.allocs) == map[];
  }

  /** Evaluations of a run, and copies of them. */
  ghost function Added(conf: Conf, wd: World, events: seq<Event>): nat {
    Accepted(conf, wd, events) + Copies(conf, wd, events)
  }

  lemma OneEventMore(conf: Conf, wd: World, events: seq<Event>)
    requires events != []
    ensures var n := |events| - 1; var before := After(conf, wd, events[..n]);
      && After(conf, wd, events).db == Effect(conf, before, events[n])
      && Steps(conf, wd, events) == Steps(conf, wd, events[..n]) + StepsOf(conf, before, events[n])
      && Copies(conf, wd, events) == Copies(conf, wd, events[..n]) + CopiesOf(conf, before, events[n])
      && Added(conf, wd, events) == Added(conf, wd, events[..n]) + AddedBy(conf, before, events[n])
  {
    hide Effect, StepsOf, CopiesOf, Accepts;
  }

  lemma RunIsSane(conf: Conf, t0: int, events: seq<Event>)
    ensures RowsSane(After(conf, World(EMPTY, t0), events).db)
  {
    hide Effect, After;
    SaneAfter(conf, World(EMPTY, t0), events);
  }

  lemma NoEvents(conf: Conf, t0: int)
    ensures var wd := World(EMPTY, t0);
      After(conf, wd, []) == wd && Steps(conf, wd, []) == 0 && Added(conf, wd, []) == 0
  {
  }

  lemma PaidSum(conf: Conf, before: Db, after: Db, steps: nat, now: nat, n: nat, more: nat)
    requires Outstanding(conf, before) + steps <= 2 * Attempts(conf) * n && Paid(conf, before, after, now, more)
    ensures Counted(conf, after) && Outstanding(conf, after) + (steps + now) <= 2 * Attempts(conf) * (n + more)
  {
    hide Outstanding, Counted, Attempts;
    Sum(Outstanding(conf, before), Outstanding(conf, after), steps, now, Attempts(conf), n, more);
  }

  lemma {:induction false} RunCosts(conf: Conf, t0: int, events: seq<Event>)
    ensures var wd := World(EMPTY, t0); var t := After(conf, wd, events).db;
      && Counted(conf, t)
      && Outstanding(conf, t) + Steps(conf, wd, events) <= 2 * Attempts(conf) * Added(conf, wd, events)
    decreases |events|
  {
    hide *;
    var wd := World(EMPTY, t0);
    if events == [] {
      NoEvents(conf, t0);
      NothingOutstanding(conf);
    } else {
      var n := |events| - 1;
      RunIsSane(conf, t0, events[..n]);
      RunCosts(conf, t0, events[..n]);
      OneEventMore(conf, wd, events);
      var before := After(conf, wd, events[..n]);
      EventCosts(conf, before, events[n]);
      PaidSum(conf, before.db, After(conf, wd, events).db, Steps(conf, wd, events[..n]),
              StepsOf(conf, before, events[n]), Added(conf, wd, events[..n]), AddedBy(conf, before, events[n]));
    }
  }

  /** In every run, whatever fails in it: n accepted evaluations cause at most
      2 * max(1, MaxRetry) * n scheduling, expiry and completion steps, where every copy that
      a failing call left behind counts as one evaluation more. */
  lemma WorkIsBounded(conf: Conf, t0: int, events: seq<Event>)
    ensures var wd := World(EMPTY, t0);
      Steps(conf, wd, events) <= 2 * Attempts(conf) * (Accepted(conf, wd, events) + Copies(conf, wd, events))
  {
    RunCosts(conf, t0, events);
    OutstandingPositive(conf, After(conf, World(EMPTY, t0), events).db);
    hide Attempts, Counted, Outstanding, Steps, Accepted, Copies, After, Effect;
  }

  lemma CopyIsStep(conf: Conf, wd: World, ev: Event)
    ensures CopiesOf(conf, wd, ev) <= StepsOf(conf, wd, ev)
  {
    if ev.CutSweep? && Sweeps(wd, ev.done) {
      assert ev.done.sent == (ev.done.sent - ev.done.removed) + ev.done.sent * ev.done.removed;
    }
  }

  /** Every copy is made by a step, so copies alone make work. */
  lemma {:induction false} CopiesAreSteps(conf: Conf, wd: World, events: seq<Event>)
    ensures Copies(conf, wd, events) <= Steps(conf, wd, events)
    decreases |events|
  {
    if events != [] {
      var n := |events| - 1;
      CopiesAreSteps(conf, wd, events[..n]);
      OneEventMore(conf, wd, events);
      CopyIsStep(conf, After(conf, wd, events[..n]), events[n]);
    }
  }

  ghost predicate StepsWithin(conf: Conf, t0: int, runs: iset<seq<Event>>, bound: nat) {
    forall events | events in runs :: Steps(conf, World(EMPTY, t0), events) <= bound
  }

  ghost predicate CopiesWithin(conf: Conf, t0: int, runs: iset<seq<Event>>, bound: nat) {
    forall events | events in runs :: Copies(conf, World(EMPTY, t0), events) <= bound
  }

  lemma Monotone(m: nat, a: nat, b: nat)
    requires a <= b
    ensures 2 * m * a <= 2 * m * b
  {
  }

  /** The work of runs with at most n accepted evaluations is bounded if and only if the number
      of copies that failing calls leave behind is. */
  lemma BoundedExactly(conf: Conf, t0: int, runs: iset<seq<Event>>, n: nat)
    requires forall events | events in runs :: Accepted(conf, World(EMPTY, t0), events) <= n
    ensures (exists bound :: StepsWithin(conf, t0, runs, bound)) <==>
      (exists bound :: CopiesWithin(conf, t0, runs, bound))
  {
    if bound :| StepsWithin(conf, t0, runs, bound) {
      forall events | events in runs ensures Copies(conf, World(EMPTY, t0), events) <= bound {
        CopiesAreSteps(conf, World(EMPTY, t0), events);
      }
      assert CopiesWithin(conf, t0, runs, bound);
    }
    if bound :| CopiesWithin(conf, t0, runs, bound) {
      var most := 2 * Attempts(conf) * (n + bound);
      forall events | events in runs ensures Steps(conf, World(EMPTY, t0), events) <= most {
        WorkIsBounded(conf, t0, events);
        Monotone(Attempts(conf), Accepted(conf, World(EMPTY, t0), events) + Copies(conf, World(EMPTY, t0), events),
            n + bound);
      }
      assert StepsWithin(conf, t0, runs, most);
    }
  }
}
