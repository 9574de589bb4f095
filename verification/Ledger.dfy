/** Conservation of capacity, in every interleaving. */
module Ledger {
  import opened Types
  import opened Sums
  import opened Machine
  import opened Integrity

  function Share(k: AllocPK, row: Alloc, w: WorkerPK): int {
    if Host(k, row) == w then SizeOf(row) else 0
  }

  function Shares(allocs: map<AllocPK, Alloc>, w: WorkerPK): map<AllocPK, int> {
    map k | k in allocs :: Share(k, allocs[k], w)
  }

  /** The sizes of the live allocs on a worker. */
  ghost function Load(allocs: map<AllocPK, Alloc>, w: WorkerPK): int {
    Total(Shares(allocs, w))
  }

  function Holdings(procs: map<nat, Process>, w: WorkerPK): map<nat, int> {
    map p | p in procs :: Held(procs[p], w)
  }

  /** Claims not yet recorded and deletions not yet credited. */
  ghost function InHands(procs: map<nat, Process>, w: WorkerPK): int {
    Total(Holdings(procs, w))
  }

  ghost function Balance(s: State, w: WorkerPK): int
    requires w in s.workers
  {
    s.workers[w].capacity + Load(s.allocs, w) + InHands(s.procs, w) + At(s.leaked, w) - At(s.excess, w)
  }

  ghost predicate Balanced(s: State, w: WorkerPK)
    requires w in s.workers
  {
    w in s.registered && Balance(s, w) == s.registered[w] && s.workers[w].capacity >= 0
  }

  predicate Positive(s: State) {
    && (forall w | w in s.leaked :: s.leaked[w] >= 0)
    && (forall w | w in s.excess :: s.excess[w] >= 0)
  }

  ghost predicate Accounted(s: State) {
    Positive(s) && forall w | w in s.workers :: Balanced(s, w)
  }

  lemma LoadSet(allocs: map<AllocPK, Alloc>, k: AllocPK, row: Alloc, w: WorkerPK)
    ensures Load(allocs[k := row], w) == Load(allocs - {k}, w) + Share(k, row, w)
    ensures Load(allocs - {k}, w) == Load(allocs, w) - (if k in allocs then Share(k, allocs[k], w) else 0)
  {
    var m := Shares(allocs, w);
    assert Shares(allocs[k := row], w) == m[k := Share(k, row, w)];
    assert Shares(allocs - {k}, w) == m - {k};
    TotalSet(m, k, Share(k, row, w));
    TotalWithout(m, k);
  }

  lemma HandsSet(procs: map<nat, Process>, p: nat, proc: Process, w: WorkerPK)
    ensures InHands(procs[p := proc], w)
      == InHands(procs, w) - (if p in procs then Held(procs[p], w) else 0) + Held(proc, w)
  {
    var m := Holdings(procs, w);
    assert Holdings(procs[p := proc], w) == m[p := Held(proc, w)];
    TotalSet(m, p, Held(proc, w));
  }

  lemma ServedBalance(rules: Rules, s: State, r: Request, w: WorkerPK)
    requires Servable(rules, s, r) && w in s.workers && w in s.registered && w in Served(rules, s, r).workers
    ensures Balance(Served(rules, s, r), w) == Balance(s, w)
    ensures Served(rules, s, r).registered[w] == s.registered[w]
    ensures Served(rules, s, r).workers[w].capacity == s.workers[w].capacity
  {
    if r.TouchAlloc? {
      LoadSet(s.allocs, r.pk, s.allocs[r.pk].(ttl := r.ttl), w);
    }
  }

  lemma ScheduledBalance(rules: Rules, s: State, p: nat, c: SchedulerCall, w: WorkerPK)
    requires Schedulable(rules, s, Proc(s, p), c) && ProcessOk(rules, s, Proc(s, p)) && w in s.workers
    requires c.Put? ==> AllocPK(Proc(s, p).pool, c.alloc) !in s.allocs
    ensures var t := Scheduled(rules, s, p, c); w in t.workers && Balance(t, w) == Balance(s, w)
    ensures s.workers[w].capacity >= 0 ==> Scheduled(rules, s, p, c).workers[w].capacity >= 0
  {
    var t := Scheduled(rules, s, p, c);
    HandsSet(s.procs, p, Proc(t, p), w);
    if c.Put? {
      var k := AllocPK(Proc(s, p).pool, c.alloc);
      LoadSet(s.allocs, k, t.allocs[k], w);
    }
  }

  lemma SentOnBalance(rules: Rules, s: State, p: nat, c: ReleaserCall, w: WorkerPK)
    requires Releasable(rules, s, Proc(s, p), c) && ProcessOk(rules, s, Proc(s, p)) && w in s.workers
    requires !c.Delete? && !c.Credit?
    ensures var t := Released(rules, s, p, c); w in t.workers && Balance(t, w) == Balance(s, w)
    ensures s.workers[w].capacity >= 0 ==> Released(rules, s, p, c).workers[w].capacity >= 0
  {
    HandsSet(s.procs, p, Proc(Released(rules, s, p, c), p), w);
  }

  lemma DeletedBalance(rules: Rules, s: State, p: nat, w: WorkerPK)
    requires Releasable(rules, s, Proc(s, p), Delete) && ProcessOk(rules, s, Proc(s, p)) && w in s.workers
    requires Seen(s, Item(Proc(s, p).item.pk, s.allocs[Proc(s, p).item.pk]))
    ensures var t := Released(rules, s, p, Delete); t.workers == s.workers && Balance(t, w) == Balance(s, w)
  {
    var k := Proc(s, p).item.pk;
    HandsSet(s.procs, p, Proc(Released(rules, s, p, Delete), p), w);
    LoadSet(s.allocs, k, s.allocs[k], w);
  }

  lemma CreditedBalance(rules: Rules, s: State, p: nat, w: WorkerPK)
    requires Releasable(rules, s, Proc(s, p), Credit) && w in s.workers && SizeOf(Proc(s, p).item.row) >= 1
    ensures var t := Released(rules, s, p, Credit); w in t.workers && Balance(t, w) == Balance(s, w)
    ensures s.workers[w].capacity >= 0 ==> Released(rules, s, p, Credit).workers[w].capacity >= 0
  {
    HandsSet(s.procs, p, Proc(Released(rules, s, p, Credit), p), w);
  }

  lemma GivenUpBalance(s: State, p: nat, next: Process, w: WorkerPK)
    requires w in s.workers && next in {Idle, AfterFailure(Proc(s, p))}
    ensures Balance(GiveUp(s, p, next), w) == Balance(s, w)
  {
    HandsSet(s.procs, p, next, w);
  }

  /** A worker id that was never registered has no allocs and is in nobody's hands. */
  lemma UnknownWorker(rules: Rules, s: State, w: WorkerPK)
    requires Whole(rules, s) && w !in s.registered
    ensures Load(s.allocs, w) == 0 && InHands(s.procs, w) == 0 && At(s.leaked, w) == 0 && At(s.excess, w) == 0
  {
    forall k | k in s.allocs ensures Share(k, s.allocs[k], w) == 0 {
      assert Seen(s, Item(k, s.allocs[k])) && RecordOk(rules, s, k);
    }
    TotalZero(Shares(s.allocs, w));
    forall p | p in s.procs ensures Held(s.procs[p], w) == 0 {
      assert ProcessOk(rules, s, s.procs[p]);
      if s.procs[p].Crediting? { assert RecordOk(rules, s, s.procs[p].item.pk); }
    }
    TotalZero(Holdings(s.procs, w));
  }

  lemma PositiveReleased(rules: Rules, s: State, p: nat, c: ReleaserCall)
    requires Positive(s) && Releasable(rules, s, Proc(s, p), c)
    requires c.Credit? ==> SizeOf(Proc(s, p).item.row) >= 1
    ensures Positive(Released(rules, s, p, c))
  {
  }

  lemma PositiveGivenUp(s: State, p: nat, next: Process)
    requires Positive(s) && Held(Proc(s, p), Holder(Proc(s, p))) >= 0
    ensures Positive(GiveUp(s, p, next))
  {
  }

  /** The worker whose capacity a process holds. */
  function Holder(proc: Process): WorkerPK {
    if proc.Claimed? then proc.host
    else if proc.Crediting? then Host(proc.item.pk, proc.item.row)
    else WorkerPK("", "")
  }

  lemma HeldPositive(rules: Rules, s: State, proc: Process, w: WorkerPK)
    requires Whole(rules, s) && ProcessOk(rules, s, proc)
    ensures Held(proc, w) >= 0
    ensures proc.Deleting? || proc.Crediting? ==> SizeOf(proc.item.row) >= 1
  {
    if proc.Deleting? || proc.Crediting? {
      assert RecordOk(rules, s, proc.item.pk);
    }
  }

  lemma AccountedServed(rules: Rules, s: State, r: Request)
    requires Whole(rules, s) && Accounted(s) && Servable(rules, s, r)
    ensures Accounted(Served(rules, s, r))
  {
    var t := Served(rules, s, r);
    forall w | w in t.workers ensures Balanced(t, w) {
      if r.AddWorker? && w == r.w {
        UnknownWorker(rules, s, w);
      } else {
        assert Balanced(s, w);
        ServedBalance(rules, s, r, w);
      }
    }
  }

  lemma AccountedScheduled(rules: Rules, s: State, p: nat, c: SchedulerCall)
    requires Whole(rules, s) && Accounted(s) && Schedulable(rules, s, Proc(s, p), c)
    ensures Accounted(Scheduled(rules, s, p, c))
  {
    var t := Scheduled(rules, s, p, c);
    assert ProcessOk(rules, s, Proc(s, p));
    assert c.Put? ==> forall k | k in s.allocs :: Seen(s, Item(k, s.allocs[k]));
    forall w | w in t.workers ensures Balanced(t, w) {
      assert Balanced(s, w);
      ScheduledBalance(rules, s, p, c, w);
    }
  }

  lemma AccountedReleased(rules: Rules, s: State, p: nat, c: ReleaserCall)
    requires Whole(rules, s) && Accounted(s) && Releasable(rules, s, Proc(s, p), c)
    ensures Accounted(Released(rules, s, p, c))
  {
    var t, proc := Released(rules, s, p, c), Proc(s, p);
    HeldPositive(rules, s, proc, WorkerPK("", ""));
    PositiveReleased(rules, s, p, c);
    forall w | w in t.workers ensures Balanced(t, w) {
      assert w in s.workers && Balanced(s, w);
      if c.Delete? {
        DeletedBalance(rules, s, p, w);
      } else if c.Credit? {
        CreditedBalance(rules, s, p, w);
      } else {
        SentOnBalance(rules, s, p, c, w);
      }
    }
  }

  lemma AccountedGivenUp(rules: Rules, s: State, p: nat, next: Process)
    requires Whole(rules, s) && Accounted(s) && next in {Idle, AfterFailure(Proc(s, p))}
    ensures Accounted(GiveUp(s, p, next))
  {
    HeldPositive(rules, s, Proc(s, p), Holder(Proc(s, p)));
    PositiveGivenUp(s, p, next);
    forall w | w in s.workers ensures Balanced(GiveUp(s, p, next), w) {
      assert Balanced(s, w);
      GivenUpBalance(s, p, next, w);
    }
  }

  lemma AccountedNext(rules: Rules, s: State, step: Step)
    requires Whole(rules, s) && Accounted(s)
    ensures Accounted(Next(rules, s, step))
  {
    match step
    case Serve(r) => if Servable(rules, s, r) { AccountedServed(rules, s, r); }
    case Schedule(p, c) => if Schedulable(rules, s, Proc(s, p), c) { AccountedScheduled(rules, s, p, c); }
    case Release(p, c) => if Releasable(rules, s, Proc(s, p), c) { AccountedReleased(rules, s, p, c); }
    case Fail(p) => AccountedGivenUp(rules, s, p, AfterFailure(Proc(s, p)));
    case Crash(p) => AccountedGivenUp(rules, s, p, Idle);
  }
}
