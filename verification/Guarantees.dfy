/** What the protocol guarantees in every reachable state: the theorems about the machine. */
module Guarantees {
  import opened Types
  import opened Names
  import opened Sums
  import opened Machine
  import opened Integrity
  import opened Ledger
  import opened Lineage
  import opened Content

  // Attempts are counted on every copy of an eval, redelivered ones included.

  predicate RetriesOk(rules: Rules, s: State) {
    var most := Attempts(rules.conf);
    && (forall m | m in s.sent :: 0 <= s.sent[m].eval.retry < most)
    && (forall k | k in s.recorded :: 1 <= s.recorded[k].eval.retry <= most)
    && (forall l | l in s.dead :: s.dead[l] != multiset{} && forall e | e in s.dead[l] :: e.retry == most)
  }

  /** The notices in a worker's queue are about allocs recorded for that worker. */
  predicate NoticeOk(rules: Rules, s: State, q: string, n: Notice) {
    var k := AllocPK(n.pool, n.alloc);
    && k in s.recorded && s.recorded[k].host == WorkerPK(n.pool, n.worker)
    && q == WorkerQueue(rules.conf, s.recorded[k].host)
  }

  predicate Informed(rules: Rules, s: State) {
    forall q, n | q in s.notices && n in s.notices[q] :: NoticeOk(rules, s, q, n)
  }

  predicate Named(s: State) {
    forall w | w in s.registered :: IsId(w.pool) && IsId(w.worker) && s.registered[w] >= 0
  }

  ghost predicate Inv(rules: Rules, s: State) {
    Whole(rules, s) && Accounted(s) && Kept(s) && RetriesOk(rules, s) && Informed(rules, s) && Named(s)
    && Faithful(s)
  }

  lemma RetriesOkServed(rules: Rules, s: State, r: Request)
    requires RetriesOk(rules, s) && Servable(rules, s, r)
    ensures RetriesOk(rules, Served(rules, s, r))
  {
    match r
    case AddPoolQueue(_) =>
    case DropPoolQueue(_) =>
    case AddWorkerQueue(_) =>
    case DropWorkerQueue(_) =>
    case AddWorker(_, _, _) =>
    case DropWorker(_) =>
    case TouchWorker(_, _) =>
    case TouchAlloc(_, _) =>
    case Submit(_, _, _, _) =>
  }

  lemma RetriesOkScheduled(rules: Rules, s: State, p: nat, c: SchedulerCall)
    requires RetriesOk(rules, s) && ProcessOk(rules, s, Proc(s, p)) && Schedulable(rules, s, Proc(s, p), c)
    ensures RetriesOk(rules, Scheduled(rules, s, p, c))
  {
    match c
    case Receive(_, _) =>
    case Claim(_) =>
    case Put(_, _) =>
    case Tell =>
    case Ack =>
  }

  lemma RetriesOkBuried(rules: Rules, s: State, p: nat)
    requires RetriesOk(rules, s) && ProcessOk(rules, s, Proc(s, p)) && Releasable(rules, s, Proc(s, p), Bury)
    ensures RetriesOk(rules, Released(rules, s, p, Bury))
  {
    var item, t := Proc(s, p).items[0], Released(rules, s, p, Bury);
    assert Seen(s, item);
    assert t.dead[s.recorded[item.pk].lineage][item.row.eval.value] > 0;
  }

  lemma RetriesOkReleased(rules: Rules, s: State, p: nat, c: ReleaserCall)
    requires RetriesOk(rules, s) && ProcessOk(rules, s, Proc(s, p)) && Releasable(rules, s, Proc(s, p), c) && !c.Bury?
    ensures RetriesOk(rules, Released(rules, s, p, c))
  {
    if c.Resend? {
      assert Seen(s, Proc(s, p).items[0]);
    }
  }

  lemma RetriesOkNext(rules: Rules, s: State, step: Step)
    requires Whole(rules, s) && RetriesOk(rules, s)
    ensures RetriesOk(rules, Next(rules, s, step))
  {
    match step
    case Serve(r) => if Servable(rules, s, r) { RetriesOkServed(rules, s, r); }
    case Schedule(p, c) =>
      assert ProcessOk(rules, s, Proc(s, p));
      if Schedulable(rules, s, Proc(s, p), c) { RetriesOkScheduled(rules, s, p, c); }
    case Release(p, c) =>
      assert ProcessOk(rules, s, Proc(s, p));
      if Releasable(rules, s, Proc(s, p), c) {
        if c.Bury? { RetriesOkBuried(rules, s, p); } else { RetriesOkReleased(rules, s, p, c); }
      }
    case Fail(p) =>
    case Crash(p) =>
  }

  lemma NoticeStays(rules: Rules, s: State, t: State, q: string, n: Notice)
    requires Extends(s, t) && NoticeOk(rules, s, q, n)
    ensures NoticeOk(rules, t, q, n)
  {
  }

  // What each kind of step leaves alone.

  lemma ServedFrame(rules: Rules, s: State, r: Request)
    requires Servable(rules, s, r)
    ensures var t := Served(rules, s, r);
      && (t.registered == s.registered || (r.AddWorker? && t.registered == s.registered[r.w := r.capacity]))
      && (forall w | w in t.workers && w !in s.workers :: w !in s.registered)
      && t.allocs.Keys == s.allocs.Keys && t.excess == s.excess && t.leaked == s.leaked && t.procs == s.procs
      && (forall q | q in t.notices :: (q in s.notices && t.notices[q] == s.notices[q]) || t.notices[q] == multiset{})
  {
  }

  lemma ScheduledFrame(rules: Rules, s: State, p: nat, c: SchedulerCall)
    requires Schedulable(rules, s, Proc(s, p), c)
    ensures var t := Scheduled(rules, s, p, c);
      && t.registered == s.registered && t.workers.Keys == s.workers.Keys
      && (forall k | k in t.allocs && k !in s.allocs :: k !in s.recorded)
      && (!c.Tell? ==> t.notices == s.notices)
      && t.excess == s.excess && t.leaked == s.leaked
  {
  }

  lemma ReleasedFrame(rules: Rules, s: State, p: nat, c: ReleaserCall)
    requires Releasable(rules, s, Proc(s, p), c)
    ensures var t := Released(rules, s, p, c);
      && t.registered == s.registered && t.workers.Keys == s.workers.Keys
      && t.allocs.Keys <= s.allocs.Keys && t.notices == s.notices
      && t.leaked == s.leaked && ((c.Credit? && !Proc(s, p).removed) || t.excess == s.excess)
  {
  }

  lemma ToldNotice(rules: Rules, s: State, p: nat, q: string, n: Notice)
    requires Whole(rules, s) && Schedulable(rules, s, Proc(s, p), Tell)
    requires var t := Scheduled(rules, s, p, Tell); q in t.notices && n in t.notices[q]
    ensures (q in s.notices && n in s.notices[q]) || NoticeOk(rules, s, q, n)
  {
    assert ProcessOk(rules, s, Proc(s, p)) && RecordOk(rules, s, Proc(s, p).pk);
  }

  /** Only Tell adds a notice. */
  lemma NoticesAdded(rules: Rules, s: State, step: Step, q: string, n: Notice)
    requires Whole(rules, s)
    requires var t := Next(rules, s, step); q in t.notices && n in t.notices[q]
    ensures (q in s.notices && n in s.notices[q]) || NoticeOk(rules, s, q, n)
  {
    match step
    case Schedule(p, c) =>
      if Schedulable(rules, s, Proc(s, p), c) {
        ScheduledFrame(rules, s, p, c);
        if c.Tell? { ToldNotice(rules, s, p, q, n); }
      }
    case Serve(r) => if Servable(rules, s, r) { ServedFrame(rules, s, r); }
    case Release(p, c) => if Releasable(rules, s, Proc(s, p), c) { ReleasedFrame(rules, s, p, c); }
    case Fail(p) =>
    case Crash(p) =>
  }

  lemma InformedNext(rules: Rules, s: State, step: Step)
    requires Whole(rules, s) && Informed(rules, s)
    ensures Informed(rules, Next(rules, s, step))
  {
    var t := Next(rules, s, step);
    WholeNext(rules, s, step);
    forall q, n | q in t.notices && n in t.notices[q] ensures NoticeOk(rules, t, q, n) {
      NoticesAdded(rules, s, step, q, n);
      NoticeStays(rules, s, t, q, n);
    }
  }

  lemma NamedNext(rules: Rules, s: State, step: Step)
    requires Named(s)
    ensures Named(Next(rules, s, step))
  {
    match step
    case Serve(r) => if Servable(rules, s, r) { ServedFrame(rules, s, r); }
    case Schedule(p, c) => if Schedulable(rules, s, Proc(s, p), c) { ScheduledFrame(rules, s, p, c); }
    case Release(p, c) => if Releasable(rules, s, Proc(s, p), c) { ReleasedFrame(rules, s, p, c); }
    case Fail(p) =>
    case Crash(p) =>
  }

  lemma InvNext(rules: Rules, s: State, step: Step)
    requires Inv(rules, s)
    ensures Inv(rules, Next(rules, s, step)) && Extends(s, Next(rules, s, step))
  {
    WholeNext(rules, s, step);
    AccountedNext(rules, s, step);
    KeptNext(rules, s, step);
    RetriesOkNext(rules, s, step);
    InformedNext(rules, s, step);
    NamedNext(rules, s, step);
    FaithfulNext(rules, s, step);
  }

  lemma {:induction false} InvRun(rules: Rules, s: State, steps: seq<Step>)
    requires Inv(rules, s)
    ensures Inv(rules, Run(rules, s, steps)) && Extends(s, Run(rules, s, steps))
    decreases |steps|
  {
    if steps != [] {
      var n := |steps| - 1;
      InvRun(rules, s, steps[..n]);
      InvNext(rules, Run(rules, s, steps[..n]), steps[n]);
    }
  }

  ghost function Reached(rules: Rules, steps: seq<Step>): State {
    Run(rules, INITIAL, steps)
  }

  lemma Reachable(rules: Rules, steps: seq<Step>)
    ensures Inv(rules, Reached(rules, steps))
  {
    InvRun(rules, INITIAL, steps);
  }

  // The theorems.

  /** A queued message of lineage `l` that is a copy of what was asked. */
  ghost predicate HasMessage(s: State, l: nat, asked: Eval) {
    exists q, m :: q in s.evals && m in s.evals[q] && m in s.sent && s.sent[m].lineage == l
        && CopyOf(asked, s.sent[m].eval)
  }

  /** A live alloc of lineage `l` that runs a copy of what was asked. */
  ghost predicate HasAlloc(s: State, l: nat, asked: Eval) {
    exists k :: k in s.allocs && k in s.recorded && s.recorded[k].lineage == l
      && s.allocs[k].eval.Some? && CopyOf(asked, s.allocs[k].eval.value)
  }

  ghost predicate HasDeadLetter(s: State, l: nat, asked: Eval) {
    l in s.dead && exists e :: e in s.dead[l] && CopyOf(asked, e)
  }

  lemma BestToken(s: State, l: nat)
    requires l in s.best && Safe(s, l) && Faithful(s) && !Ended(s, l)
    requires forall k | k in s.allocs :: Seen(s, Item(k, s.allocs[k]))
    ensures l in s.sent && (HasMessage(s, l, s.sent[l].eval) || HasAlloc(s, l, s.sent[l].eval))
  {
    hide Faithful;
    match s.best[l]
    case Queued(m) =>
      var q := s.sent[m].queue;
      assert MessageTrue(s, m) by { MessagesTrue(s, m); }
      assert q in s.evals && m in s.evals[q] && CopyOf(s.sent[l].eval, s.sent[m].eval);
    case Running(k) =>
      assert RecordTrue(s, k) by { RecordsTrue(s, k); }
      assert Seen(s, Item(k, s.allocs[k]));
      assert k in s.allocs && CopyOf(s.sent[l].eval, s.allocs[k].eval.value);
  }

  lemma MessagesTrue(s: State, m: nat)
    requires Faithful(s)
    ensures MessageTrue(s, m)
  {
  }

  lemma RecordsTrue(s: State, k: AllocPK)
    requires Faithful(s)
    ensures RecordTrue(s, k)
  {
  }

  lemma DeadLetter(s: State, l: nat)
    requires Faithful(s) && l in s.dead && s.dead[l] != multiset{}
    ensures l in s.sent && HasDeadLetter(s, l, s.sent[l].eval)
  {
    var e :| e in s.dead[l];
    assert DeadTrue(s, l);
    assert CopyFor(s, l, e);
  }

  lemma AskedFor(s: State, l: nat)
    requires Faithful(s) && l in s.best && Safe(s, l)
    ensures l in s.sent
  {
    match s.best[l]
    case Queued(m) => assert MessageTrue(s, m);
    case Running(k) => assert RecordTrue(s, k);
  }

  /** Whatever fails and whenever: while its pool exists, an accepted evaluation is queued,
      running or in the dead-letter queue with the dataset and size it was submitted with, or
      completed. */
  lemma NothingLost(rules: Rules, steps: seq<Step>, l: nat)
    requires var s := Reached(rules, steps); l in s.home && s.home[l] in s.evals
    ensures var s := Reached(rules, steps);
      && l in s.sent && var asked := s.sent[l].eval;
      HasMessage(s, l, asked) || HasAlloc(s, l, asked) || l in s.completed || HasDeadLetter(s, l, asked)
  {
    var s := Reached(rules, steps);
    Reachable(rules, steps);
    assert l in s.best && Safe(s, l);
    assert forall k | k in s.allocs :: Seen(s, Item(k, s.allocs[k]));
    assert l in s.dead ==> s.dead[l] != multiset{};
    hide Faithful, Safe, Seen, Whole, Accounted, Kept, RetriesOk, Informed, Named, HasMessage, HasAlloc, HasDeadLetter,
        Run;
    AskedFor(s, l);
    if l in s.dead {
      DeadLetter(s, l);
    } else if l !in s.completed {
      BestToken(s, l);
    }
  }

  /** From its submission on, in every continuation: all messages, allocs and dead letters of
      an evaluation have the dataset it was submitted with, and the size, where a size below
      1 counts as 1 from the first attempt on. */
  lemma EvaluationKept(rules: Rules, steps: seq<Step>, pool: string, dataset: string, size: int, msg: nat,
      more: seq<Step>)
    requires Servable(rules, Reached(rules, steps), Submit(pool, dataset, size, msg))
    ensures var s := Run(rules, Next(rules, Reached(rules, steps), Serve(Submit(pool, dataset, size, msg))), more);
      && msg in s.home
      && (forall m | m in s.sent && s.sent[m].lineage == msg :: s.sent[m].eval.dataset == dataset
            && s.sent[m].eval.size == if s.sent[m].eval.retry >= 1 && size < 1 then 1 else size)
      && (forall k | k in s.allocs && k in s.recorded && s.recorded[k].lineage == msg ::
            s.allocs[k].eval.Some? && s.allocs[k].eval.value.dataset == dataset
            && s.allocs[k].eval.value.size == if size < 1 then 1 else size)
      && (msg in s.dead ==> forall e | e in s.dead[msg] ::
            e.dataset == dataset && e.size == if size < 1 then 1 else size)
  {
    var r := Submit(pool, dataset, size, msg);
    var u := Reached(rules, steps);
    var t := Next(rules, u, Serve(r));
    var s := Run(rules, t, more);
    Reachable(rules, steps);
    SubmitWrites(rules, u, r);
    SubmitAccepts(rules, u, r);
    InvNext(rules, u, Serve(r));
    InvRun(rules, t, more);
    assert s.sent[msg].eval == Eval(dataset, size, 0);
    hide Next, Run, Servable, Served;
    forall m | m in s.sent && s.sent[m].lineage == msg ensures CopyOf(Eval(dataset, size, 0), s.sent[m].eval) {
      assert MessageTrue(s, m);
    }
    forall k | k in s.allocs && k in s.recorded && s.recorded[k].lineage == msg
      ensures s.allocs[k].eval == Some(s.recorded[k].eval) && s.recorded[k].eval.retry >= 1
      ensures CopyOf(Eval(dataset, size, 0), s.recorded[k].eval)
    {
      assert RecordTrue(s, k) && Seen(s, Item(k, s.allocs[k]));
    }
    assert DeadTrue(s, msg);
  }

  lemma SubmitAccepts(rules: Rules, s: State, r: Request)
    requires Servable(rules, s, r) && r.Submit?
    ensures Next(rules, s, Serve(r)) == Served(rules, s, r) && r.msg in Served(rules, s, r).home
  {
  }

  /** In every reachable state: free capacity, the sizes of live allocs, what processes
      hold and what was leaked add up to the registered capacity plus excess credit. */
  lemma CapacityConserved(rules: Rules, steps: seq<Step>, w: WorkerPK)
    requires w in Reached(rules, steps).workers
    ensures var s := Reached(rules, steps);
      && w in s.registered
      && s.workers[w].capacity + Load(s.allocs, w) + InHands(s.procs, w) + At(s.leaked, w)
         == s.registered[w] + At(s.excess, w)
      && s.workers[w].capacity >= 0 && Load(s.allocs, w) >= 0 && InHands(s.procs, w) >= 0
      && At(s.leaked, w) >= 0 && At(s.excess, w) >= 0
  {
    var s := Reached(rules, steps);
    Reachable(rules, steps);
    assert Balanced(s, w);
    AmountsPositive(rules, s, w);
  }

  lemma AmountsPositive(rules: Rules, s: State, w: WorkerPK)
    requires Whole(rules, s)
    ensures Load(s.allocs, w) >= 0 && InHands(s.procs, w) >= 0
  {
    forall k | k in s.allocs ensures Share(k, s.allocs[k], w) >= 0 {
      assert Seen(s, Item(k, s.allocs[k])) && RecordOk(rules, s, k);
    }
    TotalPositive(Shares(s.allocs, w));
    forall p | p in s.procs ensures Held(s.procs[p], w) >= 0 {
      HeldPositive(rules, s, s.procs[p], w);
    }
    TotalPositive(Holdings(s.procs, w));
  }

  /** However an eval is redelivered: with M = max(1, MaxRetry), it waits after at most M-1
      attempts, runs on attempts 1 to M and is dead-lettered after exactly M. */
  lemma RetriesBounded(rules: Rules, steps: seq<Step>)
    ensures var s := Reached(rules, steps);
      var most := if rules.conf.maxRetry > 1 then rules.conf.maxRetry else 1;
      && (forall q, m | q in s.evals && m in s.evals[q] :: m in s.sent && 0 <= s.sent[m].eval.retry < most)
      && (forall k | k in s.allocs :: s.allocs[k].eval.Some? && 1 <= s.allocs[k].eval.value.retry <= most)
      && (forall l, e | l in s.dead && e in s.dead[l] :: e.retry == most)
  {
    var s := Reached(rules, steps);
    Reachable(rules, steps);
    forall q, m | q in s.evals && m in s.evals[q]
      ensures m in s.sent && 0 <= s.sent[m].eval.retry < Attempts(rules.conf)
    {
      assert QueueOk(s, q);
    }
    forall k | k in s.allocs
      ensures s.allocs[k].eval.Some? && 1 <= s.allocs[k].eval.value.retry <= Attempts(rules.conf)
    {
      assert Seen(s, Item(k, s.allocs[k]));
    }
  }

  lemma NotRecreated(rules: Rules, s: State, step: Step)
    ensures var t := Next(rules, s, step);
      && (forall w | w in t.workers && w !in s.workers :: w !in s.registered)
      && (forall k | k in t.allocs && k !in s.allocs :: k !in s.recorded)
  {
    match step
    case Serve(r) => if Servable(rules, s, r) { ServedFrame(rules, s, r); }
    case Schedule(p, c) => if Schedulable(rules, s, Proc(s, p), c) { ScheduledFrame(rules, s, p, c); }
    case Release(p, c) => if Releasable(rules, s, Proc(s, p), c) { ReleasedFrame(rules, s, p, c); }
    case Fail(p) =>
    case Crash(p) =>
  }

  /** A worker or alloc row that is gone stays gone, whatever claims, credits and
      heartbeats are still under way. */
  lemma {:induction false} NeverRecreated(rules: Rules, steps: seq<Step>, more: seq<Step>)
    ensures var s := Reached(rules, steps); var t := Run(rules, s, more);
      && (forall w | w in s.registered && w !in s.workers :: w !in t.workers)
      && (forall k | k in s.recorded && k !in s.allocs :: k !in t.allocs)
    decreases |more|
  {
    if more != [] {
      var n := |more| - 1;
      var s := Reached(rules, steps);
      NeverRecreated(rules, steps, more[..n]);
      Reachable(rules, steps);
      InvRun(rules, s, more[..n]);
      NotRecreated(rules, Run(rules, s, more[..n]), more[n]);
    }
  }

  /** Every alloc row names a worker that was registered and an eval of size at least one,
      so the sweeper's checks for incomplete rows never reject one. */
  lemma RowsAreSound(rules: Rules, steps: seq<Step>)
    ensures var s := Reached(rules, steps);
      && (forall k | k in s.allocs ::
            Sound(s.allocs[k]) && SizeOf(s.allocs[k]) >= 1 && Host(k, s.allocs[k]) in s.registered)
      && (forall p | p in s.procs :: !Releasable(rules, s, s.procs[p], Skip))
  {
    var s := Reached(rules, steps);
    Reachable(rules, steps);
    forall k | k in s.allocs
      ensures Sound(s.allocs[k]) && SizeOf(s.allocs[k]) >= 1 && Host(k, s.allocs[k]) in s.registered
    {
      assert Seen(s, Item(k, s.allocs[k]));
      SeenIsSound(rules, s, Item(k, s.allocs[k]));
    }
    forall p | p in s.procs ensures !Releasable(rules, s, s.procs[p], Skip) {
      var proc := s.procs[p];
      assert ProcessOk(rules, s, proc);
      if proc.Sweeping? && proc.items != [] { SeenIsSound(rules, s, proc.items[0]); }
    }
  }

  lemma SeenIsSound(rules: Rules, s: State, item: Item)
    requires Inv(rules, s) && Seen(s, item)
    ensures Sound(item.row) && SizeOf(item.row) >= 1 && Host(item.pk, item.row) in s.registered
  {
    assert RecordOk(rules, s, item.pk);
    var host := s.recorded[item.pk].host;
    assert IsId(host.worker) && host == Host(item.pk, item.row);
  }

  /** Every notice in a worker's queue names an alloc that was recorded for that very
      pool and worker; so no alloc is announced to two queues. */
  lemma NoticesReachTheirWorker(rules: Rules, steps: seq<Step>, w: WorkerPK, n: Notice)
    requires var s := Reached(rules, steps); var q := WorkerQueue(rules.conf, w);
      IsId(w.pool) && q in s.notices && n in s.notices[q]
    ensures var k := AllocPK(n.pool, n.alloc); var s := Reached(rules, steps);
      n.pool == w.pool && n.worker == w.worker && k in s.recorded && s.recorded[k].host == w
  {
    var s := Reached(rules, steps);
    Reachable(rules, steps);
    assert NoticeOk(rules, s, WorkerQueue(rules.conf, w), n);
    var host := s.recorded[AllocPK(n.pool, n.alloc)].host;
    assert RecordOk(rules, s, AllocPK(n.pool, n.alloc)) && IsId(host.pool);
    WorkerQueueDecodes(rules.conf, w, host);
  }

  lemma OneQueuePerAlloc(rules: Rules, steps: seq<Step>, q1: string, n1: Notice, q2: string, n2: Notice)
    requires var s := Reached(rules, steps); q1 in s.notices && n1 in s.notices[q1]
    requires var s := Reached(rules, steps); q2 in s.notices && n2 in s.notices[q2]
    requires n1.pool == n2.pool && n1.alloc == n2.alloc
    ensures q1 == q2 && n1 == n2
  {
    var s := Reached(rules, steps);
    Reachable(rules, steps);
    assert NoticeOk(rules, s, q1, n1) && NoticeOk(rules, s, q2, n2);
  }
}
