/** What every row, message and process of the machine refers to really exists or
    existed, and a deleted row never comes back. */
module Integrity {
  import opened Types
  import opened Names
  import opened Machine

  /** A process's message came from its pool's queue. */
  predicate Delivered(rules: Rules, s: State, pool: string, msg: nat) {
    msg in s.sent && s.sent[msg].queue == PoolQueue(rules.conf, pool)
  }

  predicate Attempting(rules: Rules, s: State, pool: string, msg: nat, pk: AllocPK) {
    && Delivered(rules, s, pool, msg)
    && pk in s.recorded && pk.pool == pool
    && s.recorded[pk].lineage == s.sent[msg].lineage
    && s.recorded[pk].eval == Attempted(Normalised(s.sent[msg].eval))
  }

  predicate ProcessOk(rules: Rules, s: State, proc: Process) {
    match proc
    case Idle => true
    case Received(pool, msg, eval) => Delivered(rules, s, pool, msg) && eval == Normalised(s.sent[msg].eval)
    case Claimed(pool, msg, eval, host) =>
      && Delivered(rules, s, pool, msg) && eval == Attempted(Normalised(s.sent[msg].eval))
      && host in s.registered && host.pool == pool
    case Recorded(pool, msg, pk) => Attempting(rules, s, pool, msg, pk)
    case Told(pool, msg, pk) => Attempting(rules, s, pool, msg, pk)
    case Sweeping(pool, items) => AllSeen(s, pool, items)
    case Deleting(pool, item, rest, _) => Seen(s, item) && item.pk.pool == pool && AllSeen(s, pool, rest)
    case Crediting(pool, item, rest, _) => Seen(s, item) && item.pk.pool == pool && AllSeen(s, pool, rest)
  }

  predicate RecordOk(rules: Rules, s: State, pk: AllocPK)
    requires pk in s.recorded
  {
    var r := s.recorded[pk];
    && r.host in s.registered && r.host.pool == pk.pool
    && r.eval.size >= 1
    && r.lineage in s.home && s.home[r.lineage] == PoolQueue(rules.conf, pk.pool)
  }

  predicate MessageOk(s: State, m: nat)
    requires m in s.sent
  {
    && s.sent[m].lineage in s.home && s.home[s.sent[m].lineage] == s.sent[m].queue
    && s.sent[m].queue in s.poolQueues
  }

  predicate QueueOk(s: State, q: string)
    requires q in s.evals
  {
    q in s.poolQueues && forall m | m in s.evals[q] :: m in s.sent && s.sent[m].queue == q
  }

  predicate Hosts(s: State) {
    s.workers.Keys <= s.registered.Keys && s.leaked.Keys <= s.registered.Keys && s.excess.Keys <= s.registered.Keys
  }

  predicate Rows(rules: Rules, s: State) {
    && Hosts(s)
    && (forall k | k in s.allocs :: Seen(s, Item(k, s.allocs[k])))
    && (forall k | k in s.recorded :: RecordOk(rules, s, k))
    && (forall m | m in s.sent :: MessageOk(s, m))
    && (forall q | q in s.evals :: QueueOk(s, q))
  }

  predicate Whole(rules: Rules, s: State) {
    && Rows(rules, s)
    && forall p | p in s.procs :: ProcessOk(rules, s, s.procs[p])
  }

  /** History is only added to, and a pool queue that is gone stays gone. */
  predicate Extends(s: State, t: State) {
    && (forall q | q in s.poolQueues && q !in s.evals :: q !in t.evals)
    && (forall w | w in s.registered :: w in t.registered && t.registered[w] == s.registered[w])
    && (forall k | k in s.recorded :: k in t.recorded && t.recorded[k] == s.recorded[k])
    && (forall m | m in s.sent :: m in t.sent && t.sent[m] == s.sent[m])
    && (forall l | l in s.home :: l in t.home && t.home[l] == s.home[l])
    && s.poolQueues <= t.poolQueues && s.completed <= t.completed && s.dead.Keys <= t.dead.Keys
  }

  /** What one step may touch: one worker, one alloc and its record, one message, one queue. */
  datatype Focus = Focus(w: WorkerPK, k: AllocPK, m: nat, q: string)

  predicate Touches(rules: Rules, s: State, t: State, f: Focus) {
    && (t.registered == s.registered
        || (f.w !in s.registered && f.w in t.registered && t.registered == s.registered[f.w := t.registered[f.w]]))
    && (t.allocs == s.allocs || t.allocs == s.allocs - {f.k}
        || (f.k in t.allocs && t.allocs == s.allocs[f.k := t.allocs[f.k]] && Seen(t, Item(f.k, t.allocs[f.k]))))
    && (t.recorded == s.recorded
        || (f.k !in s.recorded && f.k in t.recorded && t.recorded == s.recorded[f.k := t.recorded[f.k]]
            && RecordOk(rules, t, f.k)))
    && (t.home == s.home || (f.m !in s.home && f.m in t.home && t.home == s.home[f.m := t.home[f.m]]))
    && (t.sent == s.sent
        || (f.m !in s.sent && f.m in t.sent && t.sent == s.sent[f.m := t.sent[f.m]] && MessageOk(t, f.m)))
    && (t.evals == s.evals || t.evals == s.evals - {f.q}
        || ((f.q in s.evals || f.q !in s.poolQueues) && f.q in t.evals
            && t.evals == s.evals[f.q := t.evals[f.q]] && QueueOk(t, f.q)))
    && s.poolQueues <= t.poolQueues && s.completed <= t.completed && s.dead.Keys <= t.dead.Keys
    && Hosts(t)
  }

  lemma TouchesExtends(rules: Rules, s: State, t: State, f: Focus)
    requires Touches(rules, s, t, f)
    ensures Extends(s, t)
  {
  }

  lemma ProcessOkExtends(rules: Rules, s: State, t: State, proc: Process)
    requires Extends(s, t) && ProcessOk(rules, s, proc)
    ensures ProcessOk(rules, t, proc)
  {
  }

  lemma AllocsKept(rules: Rules, s: State, t: State, f: Focus)
    requires Rows(rules, s) && Extends(s, t) && Touches(rules, s, t, f)
    ensures forall j | j in t.allocs :: Seen(t, Item(j, t.allocs[j]))
  {
    forall j | j in t.allocs && j != f.k ensures Seen(t, Item(j, t.allocs[j])) {
      assert t.allocs[j] == s.allocs[j] && Seen(s, Item(j, s.allocs[j]));
    }
  }

  lemma RecordsKept(rules: Rules, s: State, t: State, f: Focus)
    requires Rows(rules, s) && Extends(s, t) && Touches(rules, s, t, f)
    ensures forall j | j in t.recorded :: RecordOk(rules, t, j)
  {
    forall j | j in s.recorded ensures RecordOk(rules, t, j) {
      assert RecordOk(rules, s, j);
    }
  }

  lemma MailKept(rules: Rules, s: State, t: State, f: Focus)
    requires Rows(rules, s) && Extends(s, t) && Touches(rules, s, t, f)
    ensures forall j | j in t.sent :: MessageOk(t, j)
    ensures forall j | j in t.evals :: QueueOk(t, j)
  {
    forall j | j in s.sent ensures MessageOk(t, j) {
      assert MessageOk(s, j);
    }
    forall j | j in t.evals && j in s.evals && t.evals[j] == s.evals[j] ensures QueueOk(t, j) {
      assert QueueOk(s, j);
    }
  }

  /** What a step has to show: the rows it touches, and the process it moves. */
  lemma WholeKept(rules: Rules, s: State, t: State, f: Focus, p: nat, proc: Process)
    requires Whole(rules, s) && Touches(rules, s, t, f)
    requires t.procs == s.procs || (t.procs == s.procs[p := proc] && ProcessOk(rules, t, proc))
    ensures Whole(rules, t) && Extends(s, t)
  {
    TouchesExtends(rules, s, t, f);
    AllocsKept(rules, s, t, f);
    RecordsKept(rules, s, t, f);
    MailKept(rules, s, t, f);
    forall i | i in t.procs && (t.procs == s.procs || i != p) ensures ProcessOk(rules, t, t.procs[i]) {
      ProcessOkExtends(rules, s, t, s.procs[i]);
    }
  }

  // Each kind of step is looked at with only the facts about its focus in view.

  function ServeFocus(rules: Rules, r: Request): Focus {
    Focus(if r.AddWorker? then r.w else WorkerPK("", ""),
          if r.TouchAlloc? then r.pk else AllocPK("", ""),
          if r.Submit? then r.msg else 0,
          if r.Submit? || r.AddPoolQueue? || r.DropPoolQueue? then PoolQueue(rules.conf, r.pool) else "")
  }

  lemma ServedTouches(rules: Rules, s: State, r: Request, f: Focus)
    requires Servable(rules, s, r) && Hosts(s) && f == ServeFocus(rules, r)
    requires r.TouchAlloc? ==> Seen(s, Item(f.k, s.allocs[f.k]))
    requires r.Submit? ==> QueueOk(s, f.q)
    ensures var t := Served(rules, s, r); Touches(rules, s, t, f) && t.procs == s.procs
  {
  }

  function ScheduleFocus(rules: Rules, proc: Process, c: SchedulerCall): Focus {
    Focus(WorkerPK("", ""),
          if c.Put? && proc.Claimed? then AllocPK(proc.pool, c.alloc) else AllocPK("", ""),
          0,
          if c.Ack? && proc.Told? then PoolQueue(rules.conf, proc.pool) else "")
  }

  lemma ScheduledTouches(rules: Rules, s: State, p: nat, c: SchedulerCall, f: Focus)
    requires Schedulable(rules, s, Proc(s, p), c) && Hosts(s) && ProcessOk(rules, s, Proc(s, p))
    requires f == ScheduleFocus(rules, Proc(s, p), c)
    requires c.Put? ==> MessageOk(s, Proc(s, p).msg)
    requires c.Ack? ==> QueueOk(s, f.q)
    ensures var t := Scheduled(rules, s, p, c); Touches(rules, s, t, f)
    ensures var t := Scheduled(rules, s, p, c); t.procs == s.procs[p := Proc(t, p)] && ProcessOk(rules, t, Proc(t, p))
  {
  }

  function ReleaseFocus(rules: Rules, proc: Process, c: ReleaserCall): Focus {
    Focus(WorkerPK("", ""),
          if proc.Deleting? then proc.item.pk else AllocPK("", ""),
          if c.Resend? then c.msg else 0,
          if c.Resend? && proc.Sweeping? then PoolQueue(rules.conf, proc.pool) else "")
  }

  /** The alloc a releasing call is about. */
  predicate About(proc: Process, k: AllocPK) {
    (proc.Sweeping? && proc.items != [] && k == proc.items[0].pk)
    || ((proc.Deleting? || proc.Crediting?) && k == proc.item.pk)
  }

  lemma ResentTouches(rules: Rules, s: State, p: nat, c: ReleaserCall, f: Focus)
    requires Releasable(rules, s, Proc(s, p), c) && Hosts(s) && ProcessOk(rules, s, Proc(s, p))
    requires f == ReleaseFocus(rules, Proc(s, p), c)
    requires forall k | About(Proc(s, p), k) :: k in s.recorded && RecordOk(rules, s, k)
    requires c.Resend? && QueueOk(s, f.q)
    ensures var t := Released(rules, s, p, c); Touches(rules, s, t, f)
    ensures var t := Released(rules, s, p, c); t.procs == s.procs[p := Proc(t, p)] && ProcessOk(rules, t, Proc(t, p))
  {
  }

  lemma ExpelledTouches(rules: Rules, s: State, p: nat, c: ReleaserCall, f: Focus)
    requires Releasable(rules, s, Proc(s, p), c) && Hosts(s) && ProcessOk(rules, s, Proc(s, p))
    requires f == ReleaseFocus(rules, Proc(s, p), c)
    requires forall k | About(Proc(s, p), k) :: k in s.recorded && RecordOk(rules, s, k)
    requires c.Skip? || c.Bury? || c.Drop?
    ensures var t := Released(rules, s, p, c); Touches(rules, s, t, f)
    ensures var t := Released(rules, s, p, c); t.procs == s.procs[p := Proc(t, p)] && ProcessOk(rules, t, Proc(t, p))
  {
  }

  lemma LookedTouches(rules: Rules, s: State, p: nat, c: ReleaserCall, f: Focus)
    requires Releasable(rules, s, Proc(s, p), c) && Hosts(s) && ProcessOk(rules, s, Proc(s, p))
    requires f == ReleaseFocus(rules, Proc(s, p), c)
    requires forall k | About(Proc(s, p), k) :: k in s.recorded && RecordOk(rules, s, k)
    requires c.Scan? || c.Look?
    ensures var t := Released(rules, s, p, c); Touches(rules, s, t, f)
    ensures var t := Released(rules, s, p, c); t.procs == s.procs[p := Proc(t, p)] && ProcessOk(rules, t, Proc(t, p))
  {
  }

  lemma DeletedTouches(rules: Rules, s: State, p: nat, c: ReleaserCall, f: Focus)
    requires Releasable(rules, s, Proc(s, p), c) && Hosts(s) && ProcessOk(rules, s, Proc(s, p))
    requires f == ReleaseFocus(rules, Proc(s, p), c)
    requires forall k | About(Proc(s, p), k) :: k in s.recorded && RecordOk(rules, s, k)
    requires c.Delete? || c.DeleteNothing?
    ensures var t := Released(rules, s, p, c); Touches(rules, s, t, f)
    ensures var t := Released(rules, s, p, c); t.procs == s.procs[p := Proc(t, p)] && ProcessOk(rules, t, Proc(t, p))
  {
  }

  lemma CreditedTouches(rules: Rules, s: State, p: nat, c: ReleaserCall, f: Focus)
    requires Releasable(rules, s, Proc(s, p), c) && Hosts(s) && ProcessOk(rules, s, Proc(s, p))
    requires f == ReleaseFocus(rules, Proc(s, p), c)
    requires forall k | About(Proc(s, p), k) :: k in s.recorded && RecordOk(rules, s, k)
    requires c.Credit?
    ensures var t := Released(rules, s, p, c); Touches(rules, s, t, f)
    ensures var t := Released(rules, s, p, c); t.procs == s.procs[p := Proc(t, p)] && ProcessOk(rules, t, Proc(t, p))
  {
  }

  const NOWHERE := Focus(WorkerPK("", ""), AllocPK("", ""), 0, "")

  lemma GivenUpTouches(rules: Rules, s: State, p: nat, next: Process)
    requires Hosts(s) && ProcessOk(rules, s, Proc(s, p)) && next in {Idle, AfterFailure(Proc(s, p))}
    requires forall k | About(Proc(s, p), k) :: k in s.recorded && RecordOk(rules, s, k)
    ensures var t := GiveUp(s, p, next); Touches(rules, s, t, NOWHERE) && ProcessOk(rules, t, next)
  {
  }

  lemma WholeServed(rules: Rules, s: State, r: Request)
    requires Whole(rules, s) && Servable(rules, s, r)
    ensures Whole(rules, Served(rules, s, r)) && Extends(s, Served(rules, s, r))
  {
    var f := ServeFocus(rules, r);
    ServedTouches(rules, s, r, f);
    WholeKept(rules, s, Served(rules, s, r), f, 0, Idle);
  }

  lemma WholeScheduled(rules: Rules, s: State, p: nat, c: SchedulerCall)
    requires Whole(rules, s) && Schedulable(rules, s, Proc(s, p), c)
    ensures Whole(rules, Scheduled(rules, s, p, c)) && Extends(s, Scheduled(rules, s, p, c))
  {
    var t, f := Scheduled(rules, s, p, c), ScheduleFocus(rules, Proc(s, p), c);
    ScheduledTouches(rules, s, p, c, f);
    WholeKept(rules, s, t, f, p, Proc(t, p));
  }

  lemma WholeReleased(rules: Rules, s: State, p: nat, c: ReleaserCall)
    requires Whole(rules, s) && Releasable(rules, s, Proc(s, p), c)
    ensures Whole(rules, Released(rules, s, p, c)) && Extends(s, Released(rules, s, p, c))
  {
    var t, f := Released(rules, s, p, c), ReleaseFocus(rules, Proc(s, p), c);
    if c.Resend? {
      ResentTouches(rules, s, p, c, f);
    } else if c.Skip? || c.Bury? || c.Drop? {
      ExpelledTouches(rules, s, p, c, f);
    } else if c.Scan? || c.Look? {
      LookedTouches(rules, s, p, c, f);
    } else if c.Credit? {
      CreditedTouches(rules, s, p, c, f);
    } else {
      DeletedTouches(rules, s, p, c, f);
    }
    WholeKept(rules, s, t, f, p, Proc(t, p));
  }

  lemma WholeGivenUp(rules: Rules, s: State, p: nat, next: Process)
    requires Whole(rules, s) && next in {Idle, AfterFailure(Proc(s, p))}
    ensures Whole(rules, GiveUp(s, p, next)) && Extends(s, GiveUp(s, p, next))
  {
    GivenUpTouches(rules, s, p, next);
    WholeKept(rules, s, GiveUp(s, p, next), NOWHERE, p, next);
  }

  lemma WholeNext(rules: Rules, s: State, step: Step)
    requires Whole(rules, s)
    ensures Whole(rules, Next(rules, s, step)) && Extends(s, Next(rules, s, step))
  {
    match step
    case Serve(r) => if Servable(rules, s, r) { WholeServed(rules, s, r); }
    case Schedule(p, c) => if Schedulable(rules, s, Proc(s, p), c) { WholeScheduled(rules, s, p, c); }
    case Release(p, c) => if Releasable(rules, s, Proc(s, p), c) { WholeReleased(rules, s, p, c); }
    case Fail(p) => WholeGivenUp(rules, s, p, AfterFailure(Proc(s, p)));
    case Crash(p) => WholeGivenUp(rules, s, p, Idle);
  }
}
