/** When the allocs on a worker can outgrow it, and when they cannot. */
module Oversubscription {
  import opened Types
  import opened Names
  import opened Sums
  import opened Machine
  import opened Integrity
  import opened Ledger
  import opened Guarantees

  /** The load of a worker exceeds its registered capacity by no more than the credit
      that was given for deletes of rows that were already gone. */
  lemma LoadBound(rules: Rules, steps: seq<Step>, w: WorkerPK)
    requires w in Reached(rules, steps).workers
    ensures var s := Reached(rules, steps); w in s.registered && Load(s.allocs, w) <= s.registered[w] + At(s.excess, w)
  {
    CapacityConserved(rules, steps, w);
  }

  predicate DeletesNothing(rules: Rules, s: State, step: Step) {
    step.Release? && step.rel.DeleteNothing? && Releasable(rules, s, Proc(s, step.p), DeleteNothing)
  }

  /** The process has capacity in its hands that really left a row. */
  predicate Holds(proc: Process) {
    proc.Claimed? || (proc.Crediting? && proc.removed)
  }

  predicate GivesUp(s: State, step: Step) {
    (step.Fail? || step.Crash?) && Holds(Proc(s, step.p))
  }

  predicate CreditsNothing(rules: Rules, s: State, step: Step) {
    && step.Release? && step.rel.Credit? && Releasable(rules, s, Proc(s, step.p), Credit)
    && !Proc(s, step.p).removed
  }

  lemma GivenUpMargins(s: State, p: nat, next: Process)
    ensures var t := GiveUp(s, p, next); t.excess == s.excess && (Holds(Proc(s, p)) || t.leaked == s.leaked)
  {
  }

  lemma MarginsKept(rules: Rules, s: State, step: Step)
    ensures var t := Next(rules, s, step);
      && (CreditsNothing(rules, s, step) || t.excess == s.excess)
      && (GivesUp(s, step) || t.leaked == s.leaked)
  {
    hide Served, Scheduled, Released, Servable, Schedulable, Releasable, Proc, Holds, GiveUp, AfterFailure;
    match step
    case Serve(r) => if Servable(rules, s, r) { ServedFrame(rules, s, r); }
    case Schedule(p, c) => if Schedulable(rules, s, Proc(s, p), c) { ScheduledFrame(rules, s, p, c); }
    case Release(p, c) => if Releasable(rules, s, Proc(s, p), c) { ReleasedFrame(rules, s, p, c); }
    case Fail(p) => GivenUpMargins(s, p, AfterFailure(Proc(s, p)));
    case Crash(p) => GivenUpMargins(s, p, Idle);
  }

  /** Whether a step gives worker `w` credit for a row that was already gone. */
  predicate OverCredits(rules: Rules, s: State, step: Step, w: WorkerPK) {
    CreditsNothing(rules, s, step) && var item := Proc(s, step.p).item; Host(item.pk, item.row) == w
  }

  predicate NoOverCredits(rules: Rules, s: State, steps: seq<Step>, w: WorkerPK)
    decreases |steps|
  {
    steps == [] || (
      NoOverCredits(rules, s, steps[..|steps| - 1], w)
      && !OverCredits(rules, Run(rules, s, steps[..|steps| - 1]), steps[|steps| - 1], w))
  }

  lemma ExcessStep(rules: Rules, s: State, step: Step, w: WorkerPK)
    requires Whole(rules, s)
    ensures var t := Next(rules, s, step);
      if OverCredits(rules, s, step, w) then At(t.excess, w) > At(s.excess, w) else At(t.excess, w) == At(s.excess, w)
  {
    MarginsKept(rules, s, step);
    if CreditsNothing(rules, s, step) {
      HeldPositive(rules, s, Proc(s, step.p), w);
    }
  }

  lemma {:induction false} ExcessExactly(rules: Rules, steps: seq<Step>, w: WorkerPK)
    ensures At(Reached(rules, steps).excess, w) >= 0
    ensures At(Reached(rules, steps).excess, w) == 0 <==> NoOverCredits(rules, INITIAL, steps, w)
    decreases |steps|
  {
    if steps != [] {
      var n := |steps| - 1;
      ExcessExactly(rules, steps[..n], w);
      Reachable(rules, steps[..n]);
      ExcessStep(rules, Reached(rules, steps[..n]), steps[n], w);
    }
  }

  /** A worker's books balance exactly when no credit was applied to it for a delete that
      removed nothing. */
  lemma BooksBalanceExactly(rules: Rules, steps: seq<Step>, w: WorkerPK)
    requires w in Reached(rules, steps).workers
    ensures w in Reached(rules, steps).registered
    ensures var s := Reached(rules, steps);
      s.workers[w].capacity + Load(s.allocs, w) + InHands(s.procs, w) + At(s.leaked, w) == s.registered[w]
      <==> NoOverCredits(rules, INITIAL, steps, w)
  {
    CapacityConserved(rules, steps, w);
    ExcessExactly(rules, steps, w);
  }

  // Runs in which every credit is for a row that was removed.

  predicate OnlyReal(s: State) {
    forall p | p in s.procs :: Real(s.procs[p])
  }

  predicate Real(proc: Process) {
    proc.Crediting? ==> proc.removed
  }

  lemma ScheduledReal(rules: Rules, s: State, p: nat, c: SchedulerCall)
    requires Schedulable(rules, s, Proc(s, p), c)
    ensures var t := Scheduled(rules, s, p, c); t.procs == s.procs[p := Proc(t, p)] && Real(Proc(t, p))
  {
  }

  lemma ReleasedReal(rules: Rules, s: State, p: nat, c: ReleaserCall)
    requires Releasable(rules, s, Proc(s, p), c) && Real(Proc(s, p)) && (c.DeleteNothing? ==> rules.guarded)
    ensures var t := Released(rules, s, p, c); t.procs == s.procs[p := Proc(t, p)] && Real(Proc(t, p))
  {
  }

  lemma OnlyRealNext(rules: Rules, s: State, step: Step)
    requires OnlyReal(s) && (rules.guarded || !DeletesNothing(rules, s, step))
    ensures OnlyReal(Next(rules, s, step)) && Next(rules, s, step).excess == s.excess
  {
    MarginsKept(rules, s, step);
    assert !CreditsNothing(rules, s, step);
    hide Scheduled, Released, Schedulable, Servable, Releasable;
    match step
    case Serve(r) => if Servable(rules, s, r) { ServedFrame(rules, s, r); }
    case Schedule(p, c) => if Schedulable(rules, s, Proc(s, p), c) { ScheduledReal(rules, s, p, c); }
    case Release(p, c) => if Releasable(rules, s, Proc(s, p), c) { ReleasedReal(rules, s, p, c); }
    case Fail(p) =>
    case Crash(p) =>
  }

  // The amended rule: credit the worker only when the delete removed the row.

  lemma {:induction false} GuardedNoExcess(rules: Rules, steps: seq<Step>)
    requires rules.guarded
    ensures OnlyReal(Reached(rules, steps)) && Reached(rules, steps).excess == map[]
    decreases |steps|
  {
    if steps != [] {
      var n := |steps| - 1;
      GuardedNoExcess(rules, steps[..n]);
      OnlyRealNext(rules, Reached(rules, steps[..n]), steps[n]);
    }
  }

  /** Under the amended rule no worker is ever oversubscribed. */
  lemma GuardedNeverOversubscribed(rules: Rules, steps: seq<Step>, w: WorkerPK)
    requires rules.guarded && w in Reached(rules, steps).workers
    ensures var s := Reached(rules, steps); w in s.registered && Load(s.allocs, w) <= s.registered[w]
  {
    LoadBound(rules, steps, w);
    GuardedNoExcess(rules, steps);
  }

  // The rule of the program, when no two releases overlap on one alloc.

  /** The items a process may still delete. */
  function Todo(proc: Process): seq<Item> {
    match proc
    case Sweeping(_, items) => items
    case Deleting(_, item, rest, _) => [item] + rest
    case Crediting(_, _, rest, _) => rest
    case _ => []
  }

  predicate Distinct(items: seq<Item>) {
    forall i, j | 0 <= i < j < |items| :: items[i].pk != items[j].pk
  }

  predicate AllLive(s: State, items: seq<Item>) {
    forall i | 0 <= i < |items| :: items[i].pk in s.allocs
  }

  predicate Disjoint(a: seq<Item>, b: seq<Item>) {
    forall i, j | 0 <= i < |a| && 0 <= j < |b| :: a[i].pk != b[j].pk
  }

  /** A release may start on these items: all exist, and nobody else is releasing one. */
  predicate Free(s: State, items: seq<Item>) {
    Distinct(items) && AllLive(s, items) && forall p | p in s.procs :: Disjoint(items, Todo(s.procs[p]))
  }

  /** No release starts on an alloc that is gone or in the hands of another release. */
  predicate Exclusive(s: State, step: Step) {
    step.Release? ==>
      && (step.rel.Scan? ==> Free(s, step.rel.items))
      && (step.rel.Look? ==> Free(s, [step.rel.item]))
  }

  predicate ExclusiveRun(rules: Rules, steps: seq<Step>)
    decreases |steps|
  {
    steps == [] || (
      ExclusiveRun(rules, steps[..|steps| - 1])
      && Exclusive(Run(rules, INITIAL, steps[..|steps| - 1]), steps[|steps| - 1]))
  }

  predicate Separate(s: State) {
    && (forall p | p in s.procs :: Distinct(Todo(s.procs[p])) && AllLive(s, Todo(s.procs[p])))
    && (forall p, q | p in s.procs && q in s.procs && p != q :: Disjoint(Todo(s.procs[p]), Todo(s.procs[q])))
  }

  /** Items `a` are among items `b`, so whatever holds separately of `b` holds of `a`. */
  predicate Within(a: seq<Item>, b: seq<Item>) {
    a == b || a == [] || (b != [] && a == b[1..])
  }

  lemma SeparateMoved(s: State, t: State, p: nat, proc: Process)
    requires Separate(s) && t.procs == s.procs[p := proc]
    requires Within(Todo(proc), Todo(Proc(s, p))) || Free(s, Todo(proc))
    requires t.allocs.Keys == s.allocs.Keys || s.allocs.Keys <= t.allocs.Keys
    ensures Separate(t)
  {
    var items := Todo(proc);
    if !Free(s, items) {
      assert Distinct(items) && AllLive(t, items);
      assert forall q | q in s.procs && q != p ::
          Disjoint(items, Todo(s.procs[q])) && Disjoint(Todo(s.procs[q]), items);
    }
  }

  lemma SeparateDeleted(rules: Rules, s: State, p: nat)
    requires Separate(s) && Releasable(rules, s, Proc(s, p), Delete)
    ensures Separate(Released(rules, s, p, Delete))
  {
    var t := Released(rules, s, p, Delete);
    var k := Proc(s, p).item.pk;
    var todo := Todo(Proc(s, p));
    assert todo[0].pk == k && Todo(Proc(t, p)) == todo[1..];
    forall q | q in t.procs ensures AllLive(t, Todo(t.procs[q])) {
      assert AllLive(s, Todo(s.procs[q])) && (q != p ==> Disjoint(todo, Todo(s.procs[q])));
    }
    SeparateTodo(s, t, p);
  }

  lemma SeparateTodo(s: State, t: State, p: nat)
    requires Separate(s) && t.procs.Keys == s.procs.Keys + {p} && t.procs == s.procs[p := t.procs[p]]
    requires Within(Todo(t.procs[p]), Todo(Proc(s, p)))
    ensures forall q | q in t.procs :: Distinct(Todo(t.procs[q]))
    ensures forall q, r | q in t.procs && r in t.procs && q != r :: Disjoint(Todo(t.procs[q]), Todo(t.procs[r]))
  {
  }

  lemma NothingGone(s: State, p: nat)
    requires Separate(s) && Proc(s, p).Deleting?
    ensures Proc(s, p).item.pk in s.allocs
  {
    assert AllLive(s, Todo(Proc(s, p))) && Todo(Proc(s, p))[0] == Proc(s, p).item;
  }

  lemma ScheduledTodo(rules: Rules, s: State, p: nat, c: SchedulerCall)
    requires Schedulable(rules, s, Proc(s, p), c)
    ensures var t := Scheduled(rules, s, p, c);
      && t.procs == s.procs[p := Proc(t, p)] && Todo(Proc(t, p)) == [] && s.allocs.Keys <= t.allocs.Keys
  {
  }

  lemma ReleasedTodo(rules: Rules, s: State, p: nat, c: ReleaserCall)
    requires Releasable(rules, s, Proc(s, p), c) && !c.Delete? && !c.DeleteNothing?
    ensures var t := Released(rules, s, p, c);
      && t.procs == s.procs[p := Proc(t, p)] && t.allocs == s.allocs
      && Todo(Proc(t, p)) == (
        match c
        case Scan(_, items) => items
        case Look(item) => [item]
        case Skip => Todo(Proc(s, p))[1..]
        case _ => Todo(Proc(s, p)))
  {
    if Proc(s, p).Sweeping? && Proc(s, p).items != [] {
      assert Proc(s, p).items == [Proc(s, p).items[0]] + Proc(s, p).items[1..];
    }
    match c
    case Scan(_, _) =>
    case Skip =>
    case Resend(_) =>
    case Bury =>
    case Drop =>
    case Look(_) =>
    case Credit =>
  }

  lemma SeparateNext(rules: Rules, s: State, step: Step)
    requires Separate(s) && Exclusive(s, step)
    ensures Separate(Next(rules, s, step)) && !DeletesNothing(rules, s, step)
  {
    var t := Next(rules, s, step);
    match step
    case Serve(r) => if Servable(rules, s, r) { ServedFrame(rules, s, r); }
    case Schedule(p, c) =>
      if Schedulable(rules, s, Proc(s, p), c) {
        ScheduledTodo(rules, s, p, c);
        SeparateMoved(s, t, p, Proc(t, p));
      }
    case Release(p, c) =>
      if Proc(s, p).Deleting? { NothingGone(s, p); }
      if Releasable(rules, s, Proc(s, p), c) {
        if c.Delete? {
          SeparateDeleted(rules, s, p);
        } else {
          ReleasedTodo(rules, s, p, c);
          SeparateMoved(s, t, p, Proc(t, p));
        }
      }
    case Fail(p) => SeparateMoved(s, t, p, AfterFailure(Proc(s, p)));
    case Crash(p) => SeparateMoved(s, t, p, Idle);
  }

  lemma {:induction false} ExclusiveNoExcess(rules: Rules, steps: seq<Step>)
    requires ExclusiveRun(rules, steps)
    ensures Separate(Reached(rules, steps)) && OnlyReal(Reached(rules, steps)) && Reached(rules, steps).excess == map[]
    decreases |steps|
  {
    if steps != [] {
      var n := |steps| - 1;
      ExclusiveNoExcess(rules, steps[..n]);
      SeparateNext(rules, Reached(rules, steps[..n]), steps[n]);
      OnlyRealNext(rules, Reached(rules, steps[..n]), steps[n]);
    }
  }

  /** If no two releases overlap on one alloc, no worker is ever oversubscribed, for any
      number of schedulers with query results of any age. */
  lemma ExclusiveNeverOversubscribed(rules: Rules, steps: seq<Step>, w: WorkerPK)
    requires ExclusiveRun(rules, steps) && w in Reached(rules, steps).workers
    ensures var s := Reached(rules, steps); w in s.registered && Load(s.allocs, w) <= s.registered[w]
  {
    LoadBound(rules, steps, w);
    ExclusiveNoExcess(rules, steps);
  }

  // Without overlapping releases and without giving up, the books balance exactly.

  predicate Diligent(rules: Rules, steps: seq<Step>)
    decreases |steps|
  {
    steps == [] || (
      Diligent(rules, steps[..|steps| - 1])
      && !GivesUp(Run(rules, INITIAL, steps[..|steps| - 1]), steps[|steps| - 1]))
  }

  lemma {:induction false} DiligentNoLeak(rules: Rules, steps: seq<Step>)
    requires Diligent(rules, steps)
    ensures Reached(rules, steps).leaked == map[]
    decreases |steps|
  {
    if steps != [] {
      var n := |steps| - 1;
      DiligentNoLeak(rules, steps[..n]);
      MarginsKept(rules, Reached(rules, steps[..n]), steps[n]);
    }
  }

  predicate Quiescent(s: State) {
    forall p | p in s.procs :: !Holds(s.procs[p])
  }

  /** If no process ever gave up holding capacity and none holds any now, what is free and
      what is allocated make up exactly what the worker registered, if and only if no credit
      was applied to it for a delete that removed nothing. */
  lemma QuiescentExactly(rules: Rules, steps: seq<Step>, w: WorkerPK)
    requires Diligent(rules, steps) && w in Reached(rules, steps).workers && Quiescent(Reached(rules, steps))
    ensures w in Reached(rules, steps).registered
    ensures var s := Reached(rules, steps);
      s.workers[w].capacity + Load(s.allocs, w) == s.registered[w] <==> NoOverCredits(rules, INITIAL, steps, w)
  {
    CapacityConserved(rules, steps, w);
    ExcessExactly(rules, steps, w);
    DiligentNoLeak(rules, steps);
    TotalZero(Holdings(Reached(rules, steps).procs, w));
  }

  /** So without overlapping releases the two are equal. */
  lemma QuiescentExact(rules: Rules, steps: seq<Step>, w: WorkerPK)
    requires ExclusiveRun(rules, steps) && Diligent(rules, steps)
    requires w in Reached(rules, steps).workers && Quiescent(Reached(rules, steps))
    ensures var s := Reached(rules, steps);
      w in s.registered && s.workers[w].capacity + Load(s.allocs, w) == s.registered[w]
  {
    QuiescentExactly(rules, steps, w);
    ExclusiveNoExcess(rules, steps);
    ExcessExactly(rules, steps, w);
  }

  // Overlapping releases do break the bound.

  lemma {:induction false} RunAppend(rules: Rules, s: State, steps: seq<Step>, more: seq<Step>)
    ensures Run(rules, s, steps + more) == Run(rules, Run(rules, s, steps), more)
    decreases |more|
  {
    if more == [] {
      assert steps + more == steps;
    } else {
      var n := |more| - 1;
      assert (steps + more)[..|steps| + n] == steps + more[..n];
      hide Next;
      RunAppend(rules, s, steps, more[..n]);
    }
  }

  lemma RunTwo(rules: Rules, s: State, a: Step, b: Step)
    ensures Run(rules, s, [a, b]) == Next(rules, Next(rules, s, a), b)
  {
    assert [a, b][..1] == [a] && [a][..0] == [];
    assert Run(rules, s, [a]) == Next(rules, Run(rules, s, []), a);
  }

  lemma LookStep(rules: Rules, s: State, p: nat, item: Item)
    requires AtRest(Proc(s, p)) && Seen(s, item)
    ensures Next(rules, s, Release(p, Look(item))) == s.(procs := s.procs[p := Deleting(item.pk.pool, item, [], true)])
  {
  }

  lemma DeleteStep(rules: Rules, s: State, p: nat, item: Item)
    requires Proc(s, p) == Deleting(item.pk.pool, item, [], true) && item.pk in s.allocs && item.pk in s.recorded
    ensures Next(rules, s, Release(p, Delete))
         == s.(allocs := s.allocs - {item.pk}, completed := s.completed + {s.recorded[item.pk].lineage},
               procs := s.procs[p := Crediting(item.pk.pool, item, [], true)])
  {
  }

  lemma DeleteNothingStep(rules: Rules, s: State, p: nat, item: Item)
    requires Proc(s, p) == Deleting(item.pk.pool, item, [], true) && item.pk !in s.allocs && !rules.guarded
    ensures Next(rules, s, Release(p, DeleteNothing))
         == s.(procs := s.procs[p := Crediting(item.pk.pool, item, [], false)])
  {
  }

  lemma CreditStep(rules: Rules, s: State, p: nat, item: Item, removed: bool)
    requires Proc(s, p) == Crediting(item.pk.pool, item, [], removed) && Host(item.pk, item.row) in s.workers
    ensures var t := Next(rules, s, Release(p, Credit));
      && t.workers == Raise(s, Host(item.pk, item.row), SizeOf(item.row)).workers && t.allocs == s.allocs
      && t.registered == s.registered && t.recorded == s.recorded && t.sent == s.sent
      && t.procs == s.procs[p := Sweeping(item.pk.pool, [])]
  {
  }

  lemma RaiseTwice(s: State, t: State, w: WorkerPK, n: int)
    requires w in s.workers && t.workers == Raise(s, w, n).workers
    ensures w in t.workers && Raise(t, w, n).workers == Raise(s, w, 2 * n).workers
  {
  }

  function Raise(s: State, w: WorkerPK, n: int): State
    requires w in s.workers
  {
    s.(workers := s.workers[w := s.workers[w].(capacity := s.workers[w].capacity + n)])
  }

  predicate OnlyBy(steps: seq<Step>, p: nat, q: nat) {
    forall i | 0 <= i < |steps| :: steps[i].Release? && steps[i].p in {p, q}
  }

  /** Apart from workers and allocs, only processes `p` and `q` have moved. */
  ghost predicate Moved(s: State, t: State, p: nat, q: nat, pAt: Process, qAt: Process) {
    && t.registered == s.registered && t.recorded == s.recorded && t.sent == s.sent
    && Proc(t, p) == pAt && Proc(t, q) == qAt
    && forall i | i != p && i != q :: Proc(t, i) == Proc(s, i)
  }

  // Processes `p` and `q` both look the alloc up, both delete it, and both credit it.

  lemma LookTwice(rules: Rules, s: State, item: Item, p: nat, q: nat) returns (steps: seq<Step>)
    requires Seen(s, item) && p != q && AtRest(Proc(s, p)) && AtRest(Proc(s, q))
    ensures var t := Run(rules, s, steps);
      OnlyBy(steps, p, q) && t.workers == s.workers && t.allocs == s.allocs
      && Moved(s, t, p, q, Deleting(item.pk.pool, item, [], true), Deleting(item.pk.pool, item, [], true))
  {
    steps := [Release(p, Look(item)), Release(q, Look(item))];
    RunTwo(rules, s, steps[0], steps[1]);
    LookStep(rules, s, p, item);
    LookStep(rules, Next(rules, s, steps[0]), q, item);
  }

  lemma DeleteTwice(rules: Rules, s: State, item: Item, p: nat, q: nat) returns (steps: seq<Step>)
    requires !rules.guarded && item.pk in s.allocs && item.pk in s.recorded && p != q
    requires Proc(s, p) == Proc(s, q) == Deleting(item.pk.pool, item, [], true)
    ensures var t := Run(rules, s, steps);
      OnlyBy(steps, p, q) && t.workers == s.workers && t.allocs == s.allocs - {item.pk}
      && Moved(s, t, p, q, Crediting(item.pk.pool, item, [], true), Crediting(item.pk.pool, item, [], false))
  {
    steps := [Release(p, Delete), Release(q, DeleteNothing)];
    RunTwo(rules, s, steps[0], steps[1]);
    DeleteStep(rules, s, p, item);
    DeleteNothingStep(rules, Next(rules, s, steps[0]), q, item);
  }

  lemma CreditTwice(rules: Rules, s: State, item: Item, p: nat, q: nat) returns (steps: seq<Step>)
    requires Host(item.pk, item.row) in s.workers && p != q
    requires Proc(s, p) == Crediting(item.pk.pool, item, [], true)
    requires Proc(s, q) == Crediting(item.pk.pool, item, [], false)
    ensures var t := Run(rules, s, steps); var w := Host(item.pk, item.row);
      OnlyBy(steps, p, q) && t.allocs == s.allocs && t.workers == Raise(s, w, 2 * SizeOf(item.row)).workers
      && Moved(s, t, p, q, Sweeping(item.pk.pool, []), Sweeping(item.pk.pool, []))
  {
    steps := [Release(p, Credit), Release(q, Credit)];
    RunTwo(rules, s, steps[0], steps[1]);
    hide Run, Next;
    CreditStep(rules, s, p, item, true);
    RaiseTwice(s, Next(rules, s, steps[0]), Host(item.pk, item.row), SizeOf(item.row));
    hide Raise;
    CreditStep(rules, Next(rules, s, steps[0]), q, item, false);
  }

  lemma MovedOn(s: State, t: State, u: State, p: nat, q: nat)
    requires Moved(s, t, p, q, Proc(t, p), Proc(t, q)) && Moved(t, u, p, q, Proc(u, p), Proc(u, q))
    ensures Moved(s, u, p, q, Proc(u, p), Proc(u, q))
  {
  }

  lemma LookAndDeleteTwice(rules: Rules, s: State, item: Item, p: nat, q: nat) returns (steps: seq<Step>)
    requires !rules.guarded && Seen(s, item) && item.pk in s.allocs
    requires p != q && AtRest(Proc(s, p)) && AtRest(Proc(s, q))
    ensures var t := Run(rules, s, steps);
      OnlyBy(steps, p, q) && t.workers == s.workers && t.allocs == s.allocs - {item.pk}
      && Moved(s, t, p, q, Crediting(item.pk.pool, item, [], true), Crediting(item.pk.pool, item, [], false))
  {
    var looks := LookTwice(rules, s, item, p, q);
    var s2 := Run(rules, s, looks);
    var deletes := DeleteTwice(rules, s2, item, p, q);
    RunAppend(rules, s, looks, deletes);
    steps := looks + deletes;
    MovedOn(s, s2, Run(rules, s2, deletes), p, q);
  }

  lemma OverlapRun(rules: Rules, s: State, item: Item, p: nat, q: nat) returns (steps: seq<Step>)
    requires !rules.guarded && Seen(s, item) && item.pk in s.allocs && Host(item.pk, item.row) in s.workers
    requires p != q && AtRest(Proc(s, p)) && AtRest(Proc(s, q))
    ensures var w := Host(item.pk, item.row); var t := Run(rules, s, steps);
      && OnlyBy(steps, p, q)
      && t.workers == Raise(s, w, 2 * SizeOf(item.row)).workers
      && t.allocs == s.allocs - {item.pk}
      && Moved(s, t, p, q, Sweeping(item.pk.pool, []), Sweeping(item.pk.pool, []))
  {
    hide Run, Next;
    var deletes := LookAndDeleteTwice(rules, s, item, p, q);
    var s4 := Run(rules, s, deletes);
    var credits := CreditTwice(rules, s4, item, p, q);
    RunAppend(rules, s, deletes, credits);
    steps := deletes + credits;
    MovedOn(s, s4, Run(rules, s4, credits), p, q);
  }

  /** Two completion requests that both pick up a live alloc free its capacity twice:
      whatever the alloc, its worker ends up with its size in capacity it never had. */
  lemma OverlapCreditsTwice(rules: Rules, s: State, k: AllocPK, p: nat, q: nat) returns (steps: seq<Step>)
    requires !rules.guarded && Whole(rules, s) && k in s.allocs && Host(k, s.allocs[k]) in s.workers
    requires p != q && AtRest(Proc(s, p)) && AtRest(Proc(s, q))
    ensures OnlyBy(steps, p, q)
    ensures var size := SizeOf(s.allocs[k]); var w := Host(k, s.allocs[k]); var t := Run(rules, s, steps);
      && w in t.workers && t.registered == s.registered && size >= 1
      && t.workers[w].capacity + Load(t.allocs, w) == s.workers[w].capacity + Load(s.allocs, w) + size
  {
    var item := Item(k, s.allocs[k]);
    assert Seen(s, item) && RecordOk(rules, s, k);
    steps := OverlapRun(rules, s, item, p, q);
    LoadSet(s.allocs, k, item.row, Host(k, item.row));
  }

  // A run that oversubscribes a worker.

  ghost predicate OnlyMoved(s: State, t: State, p: nat, at: Process) {
    && t.registered == s.registered && t.sent == s.sent && t.home == s.home && t.evals == s.evals
    && Proc(t, p) == at && forall i | i != p :: Proc(t, i) == Proc(s, i)
  }

  lemma ReceiveStep(rules: Rules, s: State, p: nat, pool: string, msg: nat)
    requires AtRest(Proc(s, p)) && msg in s.sent
    requires s.sent[msg].queue == PoolQueue(rules.conf, pool) && s.sent[msg].eval.size >= 1
    ensures var t := Next(rules, s, Schedule(p, Receive(pool, msg)));
      && t.workers == s.workers && t.allocs == s.allocs && t.recorded == s.recorded
      && OnlyMoved(s, t, p, Received(pool, msg, s.sent[msg].eval))
  {
  }

  lemma ClaimStep(rules: Rules, s: State, p: nat, msg: nat, eval: Eval, w: WorkerPK)
    requires Proc(s, p) == Received(w.pool, msg, eval) && w in s.workers && s.workers[w].capacity >= eval.size
    ensures var t := Next(rules, s, Schedule(p, Claim(w)));
      && t.workers == Raise(s, w, -eval.size).workers && t.allocs == s.allocs && t.recorded == s.recorded
      && OnlyMoved(s, t, p, Claimed(w.pool, msg, Attempted(eval), w))
  {
  }

  lemma PutStep(rules: Rules, s: State, p: nat, msg: nat, eval: Eval, w: WorkerPK, id: string, ttl: int)
    requires Proc(s, p) == Claimed(w.pool, msg, eval, w) && msg in s.sent && AllocPK(w.pool, id) !in s.recorded
    ensures var t := Next(rules, s, Schedule(p, Put(id, ttl))); var k := AllocPK(w.pool, id);
      && t.workers == s.workers
      && t.allocs == s.allocs[k := Alloc(ttl, w.worker, Some(eval))]
      && t.recorded.Keys == s.recorded.Keys + {k} && t.recorded[k].host == w && t.recorded[k].eval == eval
      && OnlyMoved(s, t, p, Recorded(w.pool, msg, k))
  {
  }

  lemma ClaimRun(rules: Rules, s: State, p: nat, msg: nat, w: WorkerPK) returns (steps: seq<Step>)
    requires AtRest(Proc(s, p)) && msg in s.sent && s.sent[msg].queue == PoolQueue(rules.conf, w.pool)
    requires w in s.workers && s.workers[w].capacity >= s.sent[msg].eval.size >= 1
    ensures var t := Run(rules, s, steps); var e := s.sent[msg].eval;
      && t.workers == Raise(s, w, -e.size).workers && t.allocs == s.allocs && t.recorded == s.recorded
      && OnlyMoved(s, t, p, Claimed(w.pool, msg, Attempted(e), w))
    ensures |steps| == 2 && steps[0].Schedule? && steps[1].Schedule?
  {
    steps := [Schedule(p, Receive(w.pool, msg)), Schedule(p, Claim(w))];
    RunTwo(rules, s, steps[0], steps[1]);
    hide Run, Next;
    ReceiveStep(rules, s, p, w.pool, msg);
    ClaimStep(rules, Next(rules, s, steps[0]), p, msg, s.sent[msg].eval, w);
  }

  /** Receive a message, claim capacity for it and record the alloc. */
  lemma PlaceRun(rules: Rules, s: State, p: nat, msg: nat, w: WorkerPK, id: string, ttl: int) returns (steps: seq<Step>)
    requires AtRest(Proc(s, p)) && msg in s.sent && s.sent[msg].queue == PoolQueue(rules.conf, w.pool)
    requires w in s.workers && s.workers[w].capacity >= s.sent[msg].eval.size >= 1
    requires AllocPK(w.pool, id) !in s.recorded
    ensures var t := Run(rules, s, steps); var e := Attempted(s.sent[msg].eval); var k := AllocPK(w.pool, id);
      && t.workers == Raise(s, w, -e.size).workers
      && t.allocs == s.allocs[k := Alloc(ttl, w.worker, Some(e))]
      && t.recorded.Keys == s.recorded.Keys + {k} && t.recorded[k].host == w && t.recorded[k].eval == e
      && OnlyMoved(s, t, p, Recorded(w.pool, msg, k))
    ensures |steps| == 3 && forall i | 0 <= i < |steps| :: steps[i].Schedule?
  {
    hide Run, Next, Raise;
    var claim := ClaimRun(rules, s, p, msg, w);
    PutStep(rules, Run(rules, s, claim), p, msg, Attempted(s.sent[msg].eval), w, id, ttl);
    RunOne(rules, s, claim, Schedule(p, Put(id, ttl)));
    steps := claim + [Schedule(p, Put(id, ttl))];
  }

  lemma RunOne(rules: Rules, s: State, steps: seq<Step>, step: Step)
    ensures Run(rules, s, steps + [step]) == Next(rules, Run(rules, s, steps), step)
  {
    assert (steps + [step])[..|steps|] == steps;
  }

  lemma SubmitStep(rules: Rules, s: State, pool: string, size: int, msg: nat)
    requires PoolQueue(rules.conf, pool) in s.evals && msg !in s.sent && msg !in s.home
    ensures var q := PoolQueue(rules.conf, pool); var t := Next(rules, s, Serve(Submit(pool, "", size, msg)));
      && t.workers == s.workers && t.registered == s.registered
      && t.allocs == s.allocs && t.recorded == s.recorded && t.procs == s.procs
      && t.sent == s.sent[msg := Message(q, Eval("", size, 0), msg)] && t.evals.Keys == s.evals.Keys
      && t.home == s.home[msg := q]
  {
  }

  lemma SubmitsRun(rules: Rules, s: State, w: WorkerPK) returns (steps: seq<Step>)
    requires s.evals == map[PoolQueue(rules.conf, w.pool) := {}] && s.sent == map[] && s.home == map[]
    ensures var t := Run(rules, s, steps); var q := PoolQueue(rules.conf, w.pool);
      && t.workers == s.workers && t.registered == s.registered
      && t.allocs == s.allocs && t.recorded == s.recorded && t.procs == s.procs
      && t.sent == map[0 := Message(q, Eval("", 1, 0), 0), 1 := Message(q, Eval("", 2, 0), 1)]
  {
    steps := [Serve(Submit(w.pool, "", 1, 0)), Serve(Submit(w.pool, "", 2, 1))];
    RunTwo(rules, s, steps[0], steps[1]);
    SubmitStep(rules, s, w.pool, 1, 0);
    hide Run, Next;
    SubmitStep(rules, Next(rules, s, steps[0]), w.pool, 2, 1);
  }

  /** A worker of this capacity registers in a new pool: the pool's queue, the worker's queue
      and the worker's row, as the requests create them. */
  lemma RegisterRun(rules: Rules, w: WorkerPK, capacity: int, ttl: int) returns (steps: seq<Step>)
    requires IsId(w.pool) && IsId(w.worker) && capacity >= 0
    ensures var t := Reached(rules, steps); var n := WorkerQueue(rules.conf, w);
      && t.workers == map[w := Worker(capacity, n, ttl)] && t.registered == map[w := capacity]
      && t.evals == map[PoolQueue(rules.conf, w.pool) := {}] && t.notices == map[n := multiset{}]
      && t.allocs == map[] && t.recorded == map[] && t.procs == map[] && t.sent == map[] && t.home == map[]
  {
    steps := [Serve(AddPoolQueue(w.pool)), Serve(AddWorkerQueue(w))];
    RunTwo(rules, INITIAL, steps[0], steps[1]);
    var s := Run(rules, INITIAL, steps);
    assert s.notices == map[WorkerQueue(rules.conf, w) := multiset{}];
    assert s.evals == map[PoolQueue(rules.conf, w.pool) := {}];
    assert s.workers == map[] && s.registered == map[] && s.procs == map[] && s.sent == map[] && s.home == map[];
    assert s.allocs == map[] && s.recorded == map[];
    hide Run;
    RunOne(rules, INITIAL, steps, Serve(AddWorker(w, capacity, ttl)));
    steps := steps + [Serve(AddWorker(w, capacity, ttl))];
  }

  /** One worker of capacity 1, and two queued evals of sizes 1 and 2. */
  lemma SetupRun(rules: Rules, w: WorkerPK, ttl: int) returns (steps: seq<Step>)
    requires IsId(w.pool) && IsId(w.worker)
    ensures var t := Reached(rules, steps); var q := PoolQueue(rules.conf, w.pool);
      && t.workers == map[w := Worker(1, WorkerQueue(rules.conf, w), ttl)] && t.registered == map[w := 1]
      && t.allocs == map[] && t.recorded == map[] && t.procs == map[]
      && t.sent == map[0 := Message(q, Eval("", 1, 0), 0), 1 := Message(q, Eval("", 2, 0), 1)]
  {
    steps := RegisterRun(rules, w, 1, ttl);
    hide Run, Next;
    var submits := SubmitsRun(rules, Reached(rules, steps), w);
    RunAppend(rules, INITIAL, steps, submits);
    steps := steps + submits;
  }

  /** For any configuration, worker and lease, the program as written can put more on a
      worker than it registered: overlapping releases of an alloc of size 1 make room for one
      of size 2 on a worker of capacity 1. */
  lemma OversubscriptionHappens(rules: Rules, w: WorkerPK, ttl: int) returns (steps: seq<Step>)
    requires !rules.guarded && IsId(w.pool) && IsId(w.worker)
    ensures var s := Reached(rules, steps); w in s.workers && w in s.registered && Load(s.allocs, w) > s.registered[w]
    ensures forall k | k in Reached(rules, steps).allocs :: IsId(k.alloc)
  {
    var setup := SetupRun(rules, w, ttl);
    var rest := OversubscribeRun(rules, Reached(rules, setup), w, ttl);
    RunAppend(rules, INITIAL, setup, rest);
    steps := setup + rest;
  }

  function Letters(c: char): string {
    seq(20, _ => c)
  }

  /** An alloc of size 1 is placed and completed twice at once. */
  lemma DoubleRun(rules: Rules, s: State, w: WorkerPK, id: string, ttl: int) returns (steps: seq<Step>)
    requires !rules.guarded && w in s.workers && s.workers[w].capacity == 1
    requires s.allocs == map[] && s.recorded == map[] && s.procs == map[]
    requires 0 in s.sent && s.sent[0] == Message(PoolQueue(rules.conf, w.pool), Eval("", 1, 0), 0)
    ensures var t := Run(rules, s, steps);
      && w in t.workers && t.workers[w].capacity == 2 && t.allocs == map[] && t.recorded.Keys == {AllocPK(w.pool, id)}
      && t.registered == s.registered && t.sent == s.sent && AtRest(Proc(t, 3))
  {
    hide Run, Next;
    var k := AllocPK(w.pool, id);
    var first := PlaceRun(rules, s, 0, 0, w, id, ttl);
    var s1 := Run(rules, s, first);
    var overlap := OverlapRun(rules, s1, Item(k, s1.allocs[k]), 1, 2);
    assert Run(rules, s1, overlap).allocs == map[];
    RunAppend(rules, s, first, overlap);
    steps := first + overlap;
  }

  lemma SecondRun(rules: Rules, s: State, w: WorkerPK, id: string, ttl: int) returns (steps: seq<Step>)
    requires w in s.workers && s.workers[w].capacity == 2 && s.allocs == map[] && AtRest(Proc(s, 3))
    requires 1 in s.sent && s.sent[1] == Message(PoolQueue(rules.conf, w.pool), Eval("", 2, 0), 1)
    requires AllocPK(w.pool, id) !in s.recorded
    ensures var t := Run(rules, s, steps);
      && w in t.workers && t.registered == s.registered
      && t.allocs == map[][AllocPK(w.pool, id) := Alloc(ttl, w.worker, Some(Eval("", 2, 1)))]
  {
    hide Run, Next, AtRest;
    steps := PlaceRun(rules, s, 3, 1, w, id, ttl);
  }

  lemma TwoIds()
    ensures IsId(Letters('a')) && IsId(Letters('b')) && Letters('a') != Letters('b')
  {
    assert Letters('a')[0] != Letters('b')[0];
  }

  lemma OversubscribeRun(rules: Rules, s: State, w: WorkerPK, ttl: int) returns (steps: seq<Step>)
    requires !rules.guarded && w in s.workers && s.workers[w].capacity == 1 && s.registered == map[w := 1]
    requires s.allocs == map[] && s.recorded == map[] && s.procs == map[]
    requires var q := PoolQueue(rules.conf, w.pool);
      s.sent == map[0 := Message(q, Eval("", 1, 0), 0), 1 := Message(q, Eval("", 2, 0), 1)]
    ensures var t := Run(rules, s, steps); w in t.workers && w in t.registered && Load(t.allocs, w) > t.registered[w]
    ensures forall k | k in Run(rules, s, steps).allocs :: IsId(k.alloc)
  {
    hide *;
    var a, b := Letters('a'), Letters('b');
    TwoIds();
    SingleLoad(AllocPK(w.pool, b), Alloc(ttl, w.worker, Some(Eval("", 2, 1))), w);
    SizeTwo(AllocPK(w.pool, b), ttl, w);
    var double := DoubleRun(rules, s, w, a, ttl);
    var second := SecondRun(rules, Run(rules, s, double), w, b, ttl);
    RunAppend(rules, s, double, second);
    steps := double + second;
  }

  lemma SizeTwo(k: AllocPK, ttl: int, w: WorkerPK)
    requires k.pool == w.pool
    ensures Share(k, Alloc(ttl, w.worker, Some(Eval("", 2, 1))), w) == 2
  {
  }

  lemma SingleLoad(k: AllocPK, row: Alloc, w: WorkerPK)
    ensures Load(map[][k := row], w) == Share(k, row, w)
  {
    var none: map<AllocPK, Alloc> := map[];
    LoadSet(none, k, row, w);
    assert none - {k} == none;
    TotalZero(Shares(none, w));
  }
}
