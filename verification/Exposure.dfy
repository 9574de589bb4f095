/** Exactly when a worker can still be oversubscribed: whether its allocs can outgrow its
    registered capacity is settled by the credit it got for rows that were already gone and
    the capacity that was leaked, whatever requests and schedulers do from then on. */
module Exposure {
  import opened Types
  import opened Names
  import opened Sums
  import opened Machine
  import opened Integrity
  import opened Ledger
  import opened Guarantees
  import opened Oversubscription

  ghost predicate Overloaded(s: State, w: WorkerPK) {
    w in s.workers && w in s.registered && Load(s.allocs, w) > s.registered[w]
  }

  /** Some continuation that over-credits `w` no further puts more on it than it registered. */
  ghost predicate CanOverload(rules: Rules, s: State, w: WorkerPK) {
    exists more :: NoOverCredits(rules, s, more, w) && Overloaded(Run(rules, s, more), w)
  }

  // Without further over-credit the margin can only shrink.

  lemma LeakStep(rules: Rules, s: State, step: Step, w: WorkerPK)
    requires Whole(rules, s)
    ensures At(Next(rules, s, step).leaked, w) >= At(s.leaked, w)
  {
    MarginsKept(rules, s, step);
    if GivesUp(s, step) {
      assert ProcessOk(rules, s, Proc(s, step.p));
      HeldPositive(rules, s, Proc(s, step.p), Holder(Proc(s, step.p)));
      LeaksGrow(s.leaked, Proc(s, step.p), w);
    }
  }

  lemma LeaksGrow(leaked: map<WorkerPK, int>, proc: Process, w: WorkerPK)
    requires Held(proc, Holder(proc)) >= 0
    ensures At(Leaks(leaked, proc), w) >= At(leaked, w)
  {
  }

  lemma {:induction false} MarginShrinks(rules: Rules, s: State, more: seq<Step>, w: WorkerPK)
    requires Inv(rules, s) && NoOverCredits(rules, s, more, w)
    ensures var t := Run(rules, s, more); At(t.excess, w) == At(s.excess, w) && At(t.leaked, w) >= At(s.leaked, w)
    decreases |more|
  {
    if more != [] {
      var n := |more| - 1;
      MarginShrinks(rules, s, more[..n], w);
      InvRun(rules, s, more[..n]);
      ExcessStep(rules, Run(rules, s, more[..n]), more[n], w);
      LeakStep(rules, Run(rules, s, more[..n]), more[n], w);
    }
  }

  lemma LoadWithin(rules: Rules, s: State, w: WorkerPK)
    requires Inv(rules, s) && w in s.workers
    ensures w in s.registered && Load(s.allocs, w) <= s.registered[w] + At(s.excess, w) - At(s.leaked, w)
  {
    assert Balanced(s, w);
    AmountsPositive(rules, s, w);
  }

  /** With no more excess credit than leaked capacity, nothing oversubscribes the worker. */
  lemma NoMarginNoOverload(rules: Rules, s: State, more: seq<Step>, w: WorkerPK)
    requires Inv(rules, s) && NoOverCredits(rules, s, more, w) && At(s.excess, w) <= At(s.leaked, w)
    ensures !Overloaded(Run(rules, s, more), w)
  {
    var t := Run(rules, s, more);
    MarginShrinks(rules, s, more, w);
    InvRun(rules, s, more);
    if w in t.workers { LoadWithin(rules, t, w); }
  }

  // First, whoever holds capacity of the worker finishes.

  function Holders(s: State, w: WorkerPK): set<nat> {
    set p | p in s.procs && Held(s.procs[p], w) != 0
  }

  /** Worker, pool queue and margin are as before. */
  predicate Steady(rules: Rules, s: State, t: State, w: WorkerPK) {
    && w in s.workers && w in t.workers && t.registered == s.registered
    && At(t.excess, w) == At(s.excess, w) && At(t.leaked, w) == At(s.leaked, w) && t.evals == s.evals
  }

  lemma NewAllocId(ks: set<AllocPK>, pool: string) returns (id: string)
    ensures AllocPK(pool, id) !in ks
    decreases ks
  {
    var n := LengthAbove(ks);
    id := seq(n, i => 'a');
    assert forall k | k in ks :: |k.alloc| < |id|;
  }

  lemma {:induction false} LengthAbove(ks: set<AllocPK>) returns (n: nat)
    ensures forall k | k in ks :: |k.alloc| < n
    decreases ks
  {
    if ks == {} {
      n := 0;
    } else {
      var k :| k in ks;
      var m := LengthAbove(ks - {k});
      n := if |k.alloc| < m then m else |k.alloc| + 1;
    }
  }

  lemma {:induction false} NumberAbove(ns: set<nat>) returns (n: nat)
    ensures forall m | m in ns :: m < n
    decreases ns
  {
    if ns == {} {
      n := 0;
    } else {
      var m :| m in ns;
      var k := NumberAbove(ns - {m});
      n := if m < k then k else m + 1;
      assert forall j | j in ns :: j == m || j in ns - {m};
    }
  }

  lemma PutSettles(rules: Rules, s: State, p: nat, w: WorkerPK, id: string)
    requires p in s.procs && s.procs[p].Claimed? && w in s.workers && s.procs[p].msg in s.sent
    requires AllocPK(s.procs[p].pool, id) !in s.recorded
    ensures var t := Next(rules, s, Schedule(p, Put(id, 0)));
      Steady(rules, s, t, w) && t.procs == s.procs[p := Proc(t, p)] && Held(Proc(t, p), w) == 0
  {
  }

  lemma CreditSettles(rules: Rules, s: State, p: nat, w: WorkerPK)
    requires p in s.procs && s.procs[p].Crediting? && s.procs[p].removed && w in s.workers
    requires Host(s.procs[p].item.pk, s.procs[p].item.row) == w
    ensures var t := Next(rules, s, Release(p, Credit));
      Steady(rules, s, t, w) && t.procs == s.procs[p := Proc(t, p)] && Held(Proc(t, p), w) == 0
    ensures !OverCredits(rules, s, Release(p, Credit), w)
  {
  }

  lemma FewerHolders(s: State, t: State, p: nat, w: WorkerPK)
    requires p in Holders(s, w) && t.procs == s.procs[p := Proc(t, p)] && Held(Proc(t, p), w) == 0
    ensures Holders(t, w) == Holders(s, w) - {p}
  {
  }

  lemma FinishOne(rules: Rules, s: State, p: nat, w: WorkerPK) returns (step: Step)
    requires Inv(rules, s) && p in Holders(s, w) && w in s.workers
    ensures var t := Next(rules, s, step);
      Steady(rules, s, t, w) && Holders(t, w) == Holders(s, w) - {p}
    ensures !OverCredits(rules, s, step, w)
  {
    assert ProcessOk(rules, s, s.procs[p]);
    if s.procs[p].Claimed? {
      var id := NewAllocId(s.recorded.Keys, s.procs[p].pool);
      step := Schedule(p, Put(id, 0));
      PutSettles(rules, s, p, w, id);
    } else {
      step := Release(p, Credit);
      CreditSettles(rules, s, p, w);
    }
    FewerHolders(s, Next(rules, s, step), p, w);
  }

  lemma {:induction false} JoinNoOverCredits(rules: Rules, s: State, steps: seq<Step>, more: seq<Step>, w: WorkerPK)
    requires NoOverCredits(rules, s, steps, w) && NoOverCredits(rules, Run(rules, s, steps), more, w)
    ensures NoOverCredits(rules, s, steps + more, w)
    decreases |more|
  {
    if more == [] {
      assert steps + more == steps;
    } else {
      var n := |more| - 1;
      assert (steps + more)[..|steps| + n] == steps + more[..n];
      JoinNoOverCredits(rules, s, steps, more[..n], w);
      RunAppend(rules, s, steps, more[..n]);
    }
  }

  lemma OneStep(rules: Rules, s: State, step: Step, w: WorkerPK)
    requires !OverCredits(rules, s, step, w)
    ensures NoOverCredits(rules, s, [step], w) && Run(rules, s, [step]) == Next(rules, s, step)
  {
    assert [step][..0] == [];
    assert Run(rules, s, []) == s;
  }

  lemma {:induction false} FinishAll(rules: Rules, s: State, w: WorkerPK) returns (steps: seq<Step>)
    requires Inv(rules, s) && w in s.workers
    ensures var t := Run(rules, s, steps); Steady(rules, s, t, w) && Holders(t, w) == {} && Inv(rules, t)
    ensures NoOverCredits(rules, s, steps, w)
    decreases Holders(s, w)
  {
    if Holders(s, w) == {} {
      steps := [];
    } else {
      var p :| p in Holders(s, w);
      var step := FinishOne(rules, s, p, w);
      var t := Next(rules, s, step);
      InvNext(rules, s, step);
      OneStep(rules, s, step, w);
      var rest := FinishAll(rules, t, w);
      JoinNoOverCredits(rules, s, [step], rest, w);
      RunAppend(rules, s, [step], rest);
      steps := [step] + rest;
    }
  }

  // Then one evaluation of the right size takes all the capacity there is. The scheduler claims
  // this worker from a query result in which it had the most capacity; such a result may be
  // stale, so other workers with more capacity by now do not matter.

  lemma {:induction false} NoReleases(rules: Rules, s: State, steps: seq<Step>, w: WorkerPK)
    requires forall i | 0 <= i < |steps| :: !steps[i].Release?
    ensures NoOverCredits(rules, s, steps, w)
    decreases |steps|
  {
    if steps != [] { NoReleases(rules, s, steps[..|steps| - 1], w); }
  }

  lemma Offer(rules: Rules, s: State, pool: string, size: int) returns (msg: nat, p: nat)
    requires PoolQueue(rules.conf, pool) in s.evals
    ensures var u := Next(rules, s, Serve(Submit(pool, "", size, msg)));
      && u.workers == s.workers && u.allocs == s.allocs && u.recorded == s.recorded && u.registered == s.registered
      && msg in u.sent && u.sent[msg] == Message(PoolQueue(rules.conf, pool), Eval("", size, 0), msg)
      && AtRest(Proc(u, p))
  {
    msg := NumberAbove(s.sent.Keys + s.home.Keys);
    p := NumberAbove(s.procs.Keys);
    assert p !in s.procs && msg !in s.sent && msg !in s.home;
    SubmitStep(rules, s, pool, size, msg);
  }

  lemma Fill(rules: Rules, s: State, w: WorkerPK) returns (steps: seq<Step>)
    requires Inv(rules, s) && w in s.workers && s.workers[w].capacity >= 1 && PoolQueue(rules.conf, w.pool) in s.evals
    ensures var t := Run(rules, s, steps);
      && w in t.workers && t.registered == s.registered
      && Load(t.allocs, w) == Load(s.allocs, w) + s.workers[w].capacity
    ensures NoOverCredits(rules, s, steps, w)
  {
    hide Next, Run, NoOverCredits, Whole, Load, AtRest, Proc;
    var size, ttl := s.workers[w].capacity, s.workers[w].ttl;
    var id := NewAllocId(s.recorded.Keys, w.pool);
    NewLoad(rules, s, AllocPK(w.pool, id), Alloc(ttl, w.worker, Some(Attempted(Eval("", size, 0)))), w);
    hide Inv;
    var msg, p := Offer(rules, s, w.pool, size);
    var submit := Serve(Submit(w.pool, "", size, msg));
    OneStep(rules, s, submit, w);
    var place := PlaceRun(rules, Next(rules, s, submit), p, msg, w, id, ttl);
    NoReleases(rules, s, [submit] + place, w);
    RunAppend(rules, s, [submit], place);
    steps := [submit] + place;
  }

  lemma NewLoad(rules: Rules, s: State, k: AllocPK, row: Alloc, w: WorkerPK)
    requires Whole(rules, s) && k !in s.recorded && Host(k, row) == w
    ensures Load(s.allocs[k := row], w) == Load(s.allocs, w) + SizeOf(row)
  {
    assert k in s.allocs ==> Seen(s, Item(k, s.allocs[k]));
    LoadSet(s.allocs, k, row, w);
  }

  lemma MarginOverloads(rules: Rules, s: State, w: WorkerPK) returns (more: seq<Step>)
    requires Inv(rules, s) && w in s.workers && PoolQueue(rules.conf, w.pool) in s.evals
    requires At(s.excess, w) > At(s.leaked, w)
    ensures NoOverCredits(rules, s, more, w) && Overloaded(Run(rules, s, more), w)
  {
    more := FinishAll(rules, s, w);
    var t := Run(rules, s, more);
    assert Balanced(t, w);
    NobodyHolds(t, w);
    if t.workers[w].capacity >= 1 {
      var fill := Fill(rules, t, w);
      JoinNoOverCredits(rules, s, more, fill, w);
      RunAppend(rules, s, more, fill);
      more := more + fill;
    }
  }

  lemma NobodyHolds(s: State, w: WorkerPK)
    requires Holders(s, w) == {}
    ensures InHands(s.procs, w) == 0
  {
    assert forall p | p in s.procs && Held(s.procs[p], w) != 0 :: p in Holders(s, w);
    TotalZero(Holdings(s.procs, w));
  }

  /** In every reachable state, for every worker whose pool takes evaluations: it can be
      oversubscribed without any further over-credit if and only if the credit it got for
      rows that were already gone exceeds the capacity that was leaked. That it can be rests
      on query results of any age: the scheduler may pick the worker although another one
      has more capacity by now. */
  lemma OverloadExactly(rules: Rules, steps: seq<Step>, w: WorkerPK)
    requires var s := Reached(rules, steps); w in s.workers && PoolQueue(rules.conf, w.pool) in s.evals
    ensures var s := Reached(rules, steps); CanOverload(rules, s, w) <==> At(s.excess, w) > At(s.leaked, w)
  {
    var s := Reached(rules, steps);
    Reachable(rules, steps);
    if At(s.excess, w) > At(s.leaked, w) {
      var more := MarginOverloads(rules, s, w);
    } else {
      forall more | NoOverCredits(rules, s, more, w) ensures !Overloaded(Run(rules, s, more), w) {
        NoMarginNoOverload(rules, s, more, w);
      }
    }
  }
}
