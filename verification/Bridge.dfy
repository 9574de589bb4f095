/** The request-level effects are what the machine does when nobody interferes: a process
    that runs one round of its loop without interruption changes the tables exactly as the
    handler proved on the store does. */
module Bridge {
  import opened Types
  import opened Names
  import opened Sums
  import opened Tables
  import M = Machine
  import I = Integrity
  import G = Guarantees
  import Sweeping
  import Sweeper

  /** The evals waiting in a pool queue of the machine. */
  ghost function QueuedEvals(s: M.State, q: string): multiset<Eval>
    requires q in s.evals
  {
    Bag(Bodies(s, q))
  }

  function Bodies(s: M.State, q: string): map<nat, Eval>
    requires q in s.evals
  {
    map m | m in s.evals[q] && m in s.sent :: s.sent[m].eval
  }

  ghost function Evals(s: M.State): map<string, multiset<Eval>> {
    map q | q in s.evals :: QueuedEvals(s, q)
  }

  /** Part of the invariant of every run: what waits in a queue was sent. */
  predicate AllSent(s: M.State) {
    forall q, m | q in s.evals && m in s.evals[q] :: m in s.sent
  }

  lemma WholeIsSent(rules: M.Rules, s: M.State)
    requires I.Whole(rules, s)
    ensures AllSent(s)
  {
    forall q | q in s.evals ensures forall m | m in s.evals[q] :: m in s.sent {
      assert I.QueueOk(s, q);
    }
  }

  lemma QueuedMore(s: M.State, t: M.State, q: string, msg: nat)
    requires q in s.evals && q in t.evals && t.evals[q] == s.evals[q] + {msg} && msg in t.sent && msg !in s.sent
    requires t.sent == s.sent[msg := t.sent[msg]]
    ensures QueuedEvals(t, q) == QueuedEvals(s, q) + multiset{t.sent[msg].eval}
  {
    assert Bodies(t, q) == Bodies(s, q)[msg := t.sent[msg].eval];
    BagAdd(Bodies(s, q), msg, t.sent[msg].eval);
  }

  lemma QueuedSame(s: M.State, t: M.State, q: string)
    requires q in s.evals && q in t.evals && t.evals[q] == s.evals[q]
    requires forall m | m in s.evals[q] :: m in s.sent && m in t.sent && t.sent[m] == s.sent[m]
    ensures QueuedEvals(t, q) == QueuedEvals(s, q)
  {
    assert Bodies(t, q) == Bodies(s, q);
  }

  lemma QueuedLess(s: M.State, t: M.State, q: string, msg: nat)
    requires q in s.evals && q in t.evals && t.evals[q] == s.evals[q] - {msg} && t.sent == s.sent
    requires msg in s.evals[q] && msg in s.sent
    ensures QueuedEvals(t, q) == QueuedEvals(s, q) - multiset{s.sent[msg].eval}
  {
    assert Bodies(t, q) == Bodies(s, q) - {msg};
    BagAt(Bodies(s, q), msg);
    assert multiset{s.sent[msg].eval} + QueuedEvals(t, q) - multiset{s.sent[msg].eval} == QueuedEvals(t, q);
  }

  lemma EvalsSame(s: M.State, t: M.State)
    requires AllSent(s) && t.evals == s.evals && t.sent == s.sent
    ensures Evals(t) == Evals(s)
  {
    forall q | q in s.evals ensures QueuedEvals(t, q) == QueuedEvals(s, q) {
      QueuedSame(s, t, q);
    }
  }

  lemma EvalsPut(s: M.State, t: M.State, q: string)
    requires t.evals.Keys == s.evals.Keys + {q}
    requires forall r | r in s.evals && r != q :: QueuedEvals(t, r) == QueuedEvals(s, r)
    ensures Evals(t) == Evals(s)[q := QueuedEvals(t, q)]
  {
    hide QueuedEvals;
  }

  lemma EvalsMore(s: M.State, t: M.State, q: string, msg: nat)
    requires AllSent(s) && q in s.evals && msg !in s.sent && msg in t.sent
    requires t.sent == s.sent[msg := t.sent[msg]] && t.evals == s.evals[q := s.evals[q] + {msg}]
    ensures Evals(t) == Evals(s)[q := Evals(s)[q] + multiset{t.sent[msg].eval}]
  {
    forall r | r in s.evals && r != q ensures QueuedEvals(t, r) == QueuedEvals(s, r) {
      QueuedSame(s, t, r);
    }
    QueuedMore(s, t, q, msg);
    hide QueuedEvals, Bodies;
    EvalsPut(s, t, q);
  }

  lemma EvalsLess(s: M.State, t: M.State, q: string, msg: nat)
    requires AllSent(s) && q in s.evals && msg in s.evals[q]
    requires t.sent == s.sent && t.evals == s.evals[q := s.evals[q] - {msg}]
    ensures Evals(t) == Evals(s)[q := Evals(s)[q] - multiset{s.sent[msg].eval}] && msg in s.sent
  {
    forall r | r in s.evals && r != q ensures QueuedEvals(t, r) == QueuedEvals(s, r) {
      QueuedSame(s, t, r);
    }
    QueuedLess(s, t, q, msg);
    hide QueuedEvals, Bodies;
    EvalsPut(s, t, q);
  }

  // One item of a sweep.

  /** The call that sends the head item's eval on. */
  function SendOnCall(rules: M.Rules, s: M.State, pool: string, item: M.Item, msg: nat): M.ReleaserCall
    requires item.row.eval.Some?
  {
    if Spent(rules.conf, item.row.eval.value) then M.Bury
    else if PoolQueue(rules.conf, pool) in s.evals then M.Resend(msg)
    else M.Drop
  }

  lemma ResendState(rules: M.Rules, s: M.State, p: nat, msg: nat)
    requires M.Releasable(rules, s, M.Proc(s, p), M.Resend(msg))
    ensures var proc := M.Proc(s, p); var q := PoolQueue(rules.conf, proc.pool);
      var t := M.Next(rules, s, M.Release(p, M.Resend(msg)));
      && t.workers == s.workers && t.allocs == s.allocs && t.notices == s.notices && t.recorded == s.recorded
      && M.Proc(t, p) == M.Deleting(proc.pool, proc.items[0], proc.items[1..], false)
      && msg in t.sent && t.sent == s.sent[msg := t.sent[msg]] && t.sent[msg].eval == proc.items[0].row.eval.value
      && t.evals == s.evals[q := s.evals[q] + {msg}] && t.dead == s.dead
  {
  }

  lemma DroppedEval(rules: M.Rules, s: M.State, p: nat)
    requires M.Releasable(rules, s, M.Proc(s, p), M.Drop)
    ensures var proc := M.Proc(s, p); var t := M.Next(rules, s, M.Release(p, M.Drop));
      && t.workers == s.workers && t.allocs == s.allocs && t.notices == s.notices && t.recorded == s.recorded
      && M.Proc(t, p) == M.Deleting(proc.pool, proc.items[0], proc.items[1..], false)
      && t.sent == s.sent && t.evals == s.evals && t.dead == s.dead
  {
  }

  lemma BuryState(rules: M.Rules, s: M.State, p: nat)
    requires M.Releasable(rules, s, M.Proc(s, p), M.Bury)
    ensures var proc := M.Proc(s, p); var t := M.Next(rules, s, M.Release(p, M.Bury));
      && t.workers == s.workers && t.allocs == s.allocs && t.notices == s.notices && t.recorded == s.recorded
      && M.Proc(t, p) == M.Deleting(proc.pool, proc.items[0], proc.items[1..], false)
      && t.sent == s.sent && t.evals == s.evals
      && Merged(t.dead) == Merged(s.dead) + multiset{proc.items[0].row.eval.value}
  {
    var item := M.Proc(s, p).items[0];
    MergedMore(s.dead, s.recorded[item.pk].lineage, item.row.eval.value);
  }

  lemma SentMore(s: M.State, t: M.State, q: string, msg: nat)
    requires AllSent(s) && q in s.evals && msg in t.sent
    requires t.sent == s.sent[msg := t.sent[msg]] && t.evals == s.evals[q := s.evals[q] + {msg}]
    ensures AllSent(t)
  {
  }

  lemma SendOn(rules: M.Rules, s: M.State, p: nat, msg: nat)
    requires AllSent(s) && M.Expelling(s, M.Proc(s, p)) && msg !in s.sent
    ensures var proc := M.Proc(s, p); var item := proc.items[0]; var e := item.row.eval.value;
      var t := M.Next(rules, s, M.Release(p, SendOnCall(rules, s, proc.pool, item, msg)));
      && t.workers == s.workers && t.allocs == s.allocs && t.notices == s.notices && t.recorded == s.recorded
      && M.Proc(t, p) == M.Deleting(proc.pool, item, proc.items[1..], false)
      && AllSent(t) && t.sent.Keys <= s.sent.Keys + {msg}
      && Evals(t) == (var q := PoolQueue(rules.conf, proc.pool);
                      if !Spent(rules.conf, e) && q in s.evals then Evals(s)[q := Evals(s)[q] + multiset{e}]
                      else Evals(s))
      && Merged(t.dead) == (if Spent(rules.conf, e) then Merged(s.dead) + multiset{e} else Merged(s.dead))
  {
    var proc := M.Proc(s, p);
    var q := PoolQueue(rules.conf, proc.pool);
    var call := SendOnCall(rules, s, proc.pool, proc.items[0], msg);
    var t := M.Next(rules, s, M.Release(p, call));
    if call.Resend? {
      ResendState(rules, s, p, msg);
      EvalsMore(s, t, q, msg);
      SentMore(s, t, q, msg);
    } else {
      if call.Bury? { BuryState(rules, s, p); } else { DroppedEval(rules, s, p); }
      EvalsSame(s, t);
    }
  }

  /** Delete, then credit; the credit fails if the worker is gone. */
  function Freed(rules: M.Rules, s: M.State, p: nat, w: WorkerPK): M.State {
    var u := M.Next(rules, s, M.Release(p, M.Delete));
    M.Next(rules, u, if w in u.workers then M.Release(p, M.Credit) else M.Fail(p))
  }

  lemma DeletedState(rules: M.Rules, s: M.State, p: nat, item: M.Item, rest: seq<M.Item>, completes: bool)
    requires M.Proc(s, p) == M.Deleting(item.pk.pool, item, rest, completes)
    requires item.pk in s.allocs && item.pk in s.recorded
    ensures var u := M.Next(rules, s, M.Release(p, M.Delete));
      && u.workers == s.workers && u.allocs == s.allocs - {item.pk} && u.notices == s.notices
      && u.evals == s.evals && u.sent == s.sent && u.recorded == s.recorded && u.dead == s.dead
      && M.Proc(u, p) == M.Crediting(item.pk.pool, item, rest, true)
  {
  }

  lemma CreditedState(rules: M.Rules, s: M.State, p: nat, item: M.Item, rest: seq<M.Item>)
    requires M.Proc(s, p) == M.Crediting(item.pk.pool, item, rest, true)
    ensures var w := Host(item.pk, item.row);
      var t := M.Next(rules, s, if w in s.workers then M.Release(p, M.Credit) else M.Fail(p));
      && t.workers == Credited(s.workers, w, SizeOf(item.row)) && t.allocs == s.allocs && t.notices == s.notices
      && t.evals == s.evals && t.sent == s.sent && t.recorded == s.recorded && t.dead == s.dead
      && M.Proc(t, p) == M.Sweeping(item.pk.pool, rest)
  {
  }

  lemma FreedState(rules: M.Rules, s: M.State, p: nat, item: M.Item, rest: seq<M.Item>, completes: bool)
    requires M.Proc(s, p) == M.Deleting(item.pk.pool, item, rest, completes)
    requires item.pk in s.allocs && item.pk in s.recorded
    ensures var t := Freed(rules, s, p, Host(item.pk, item.row));
      && t.allocs == s.allocs - {item.pk}
      && t.workers == Credited(s.workers, Host(item.pk, item.row), SizeOf(item.row))
      && t.evals == s.evals && t.sent == s.sent && t.notices == s.notices && t.recorded == s.recorded
      && t.dead == s.dead
      && M.Proc(t, p) == M.Sweeping(item.pk.pool, rest)
  {
    hide M.Next, M.Proc, Credited;
    DeletedState(rules, s, p, item, rest, completes);
    CreditedState(rules, M.Next(rules, s, M.Release(p, M.Delete)), p, item, rest);
  }

  /** The calls of a sweep for its next item, with no step of another process in between. */
  function ItemDone(rules: M.Rules, s: M.State, p: nat, msg: nat): M.State
    requires M.Expelling(s, M.Proc(s, p))
  {
    var item := M.Proc(s, p).items[0];
    var t := M.Next(rules, s, M.Release(p, SendOnCall(rules, s, M.Proc(s, p).pool, item, msg)));
    Freed(rules, t, p, Host(item.pk, item.row))
  }

  /** The tables of the machine that a request changes, as they are in `db`. */
  ghost predicate Agrees(s: M.State, db: Db) {
    && s.workers == db.workers && s.allocs == db.allocs && s.notices == db.notices
    && Evals(s) == db.evals && Merged(s.dead) == db.dead
  }

  predicate QueueIs(rules: M.Rules, d: Db, pool: string) {
    pool in d.pools && d.pools[pool].queue == PoolQueue(rules.conf, pool)
  }

  lemma ItemState(rules: M.Rules, s: M.State, p: nat, msg: nat)
    requires AllSent(s) && M.Expelling(s, M.Proc(s, p)) && msg !in s.sent
    requires var item := M.Proc(s, p).items[0]; item.pk in s.allocs && item.pk.pool == M.Proc(s, p).pool
    ensures var proc := M.Proc(s, p); var item := proc.items[0]; var e := item.row.eval.value;
      var t := ItemDone(rules, s, p, msg); var q := PoolQueue(rules.conf, proc.pool);
      && t.allocs == s.allocs - {item.pk}
      && t.workers == Credited(s.workers, Host(item.pk, item.row), SizeOf(item.row))
      && t.notices == s.notices && t.recorded == s.recorded
      && M.Proc(t, p) == M.Sweeping(proc.pool, proc.items[1..])
      && AllSent(t) && t.sent.Keys <= s.sent.Keys + {msg}
      && Evals(t) == (if !Spent(rules.conf, e) && q in s.evals then Evals(s)[q := Evals(s)[q] + multiset{e}]
          else Evals(s))
      && Merged(t.dead) == (if Spent(rules.conf, e) then Merged(s.dead) + multiset{e} else Merged(s.dead))
  {
    var proc := M.Proc(s, p);
    var item := proc.items[0];
    SendOn(rules, s, p, msg);
    var t := M.Next(rules, s, M.Release(p, SendOnCall(rules, s, proc.pool, item, msg)));
    FreedState(rules, t, p, item, proc.items[1..], false);
    hide M.Next, M.Proc, Freed;
    EvalsSame(t, Freed(rules, t, p, Host(item.pk, item.row)));
  }

  /** A sweeper that is left alone for one item does to the tables what the request-level
      sweep does for that alloc. */
  lemma ItemRefines(rules: M.Rules, s: M.State, d: Db, p: nat, msg: nat)
    requires AllSent(s) && Agrees(s, d) && M.Expelling(s, M.Proc(s, p)) && msg !in s.sent
    requires var item := M.Proc(s, p).items[0];
      item.pk in s.allocs && item.pk.pool == M.Proc(s, p).pool && QueueIs(rules, d, item.pk.pool)
    ensures var proc := M.Proc(s, p); var item := proc.items[0]; var t := ItemDone(rules, s, p, msg);
      && Agrees(t, Sweeping.AfterOne(rules.conf, d, item.pk, item.row, true, true))
      && AllSent(t) && t.sent.Keys <= s.sent.Keys + {msg} && t.recorded == s.recorded
      && M.Proc(t, p) == M.Sweeping(proc.pool, proc.items[1..])
  {
    ItemState(rules, s, p, msg);
    hide ItemDone, AllSent, M.Proc, Evals;
  }

  // A whole sweep of one page.

  /** The calls of a sweep for its items one after the other; `msgs` are the ids that
      evals get when they are sent again. */
  function SweepDone(rules: M.Rules, s: M.State, p: nat, msgs: seq<nat>): M.State
    decreases |msgs|
  {
    if msgs == [] || !M.Expelling(s, M.Proc(s, p)) then s
    else SweepDone(rules, ItemDone(rules, s, p, msgs[0]), p, msgs[1..])
  }

  /** A fresh page of complete rows of the pool, each listed once. */
  predicate Ready(s: M.State, pool: string, items: seq<M.Item>) {
    && (forall i | 0 <= i < |items| ::
          items[i].pk.pool == pool && items[i].pk in s.allocs && items[i].pk in s.recorded
          && s.allocs[items[i].pk] == items[i].row && Sound(items[i].row))
    && (forall i, j | 0 <= i < j < |items| :: items[i].pk != items[j].pk)
  }

  predicate Fresh(s: M.State, msgs: seq<nat>) {
    (forall i | 0 <= i < |msgs| :: msgs[i] !in s.sent) && (forall i, j | 0 <= i < j < |msgs| :: msgs[i] != msgs[j])
  }

  function PageKeys(items: seq<M.Item>): set<AllocPK> {
    set i | 0 <= i < |items| :: items[i].pk
  }

  lemma RestReady(s: M.State, t: M.State, pool: string, items: seq<M.Item>, msgs: seq<nat>)
    requires Ready(s, pool, items) && Fresh(s, msgs) && |items| == |msgs| > 0
    requires t.allocs == s.allocs - {items[0].pk} && t.recorded == s.recorded && t.sent.Keys <= s.sent.Keys + {msgs[0]}
    ensures Ready(t, pool, items[1..]) && Fresh(t, msgs[1..])
  {
  }

  lemma FirstAndRest(items: seq<M.Item>)
    requires items != []
    requires forall i, j | 0 <= i < j < |items| :: items[i].pk != items[j].pk
    ensures Both(Sweeping.ForOne(items[0].pk, true, true), Sweeping.AllocsOf(PageKeys(items[1..])))
         == Sweeping.AllocsOf(PageKeys(items))
    ensures Sweeping.Apart(Sweeping.ForOne(items[0].pk, true, true), Sweeping.AllocsOf(PageKeys(items[1..])))
  {
    assert PageKeys(items) == {items[0].pk} + PageKeys(items[1..]) by {
      forall k | k in PageKeys(items) ensures k == items[0].pk || k in PageKeys(items[1..]) {
        var i :| 0 <= i < |items| && items[i].pk == k;
        if i > 0 { assert items[1..][i - 1].pk == k; }
      }
    }
  }

  lemma FirstItem(rules: M.Rules, s: M.State, d: Db, p: nat, pool: string, items: seq<M.Item>, msgs: seq<nat>)
    requires AllSent(s) && Agrees(s, d) && M.Proc(s, p) == M.Sweeping(pool, items) && QueueIs(rules, d, pool)
    requires Ready(s, pool, items) && Fresh(s, msgs) && |items| == |msgs| > 0
    ensures M.Expelling(s, M.Proc(s, p))
    ensures var t := ItemDone(rules, s, p, msgs[0]);
      var d1 := AfterSweep(rules.conf, d, Sweeping.ForOne(items[0].pk, true, true));
      && AllSent(t) && Agrees(t, d1) && M.Proc(t, p) == M.Sweeping(pool, items[1..]) && QueueIs(rules, d1, pool)
      && Ready(t, pool, items[1..]) && Fresh(t, msgs[1..])
  {
    var k, row := items[0].pk, items[0].row;
    assert k in d.allocs && d.allocs[k] == row;
    ItemRefines(rules, s, d, p, msgs[0]);
    Sweeping.SweepOne(rules.conf, d, k, true, true);
    var t := ItemDone(rules, s, p, msgs[0]);
    assert t.allocs == s.allocs - {k};
    hide ItemDone, Agrees, AllSent, Ready, Fresh, M.Proc;
    RestReady(s, t, pool, items, msgs);
  }

  lemma {:induction false} PageRefines(rules: M.Rules, s: M.State, d: Db, p: nat, pool: string, items: seq<M.Item>,
      msgs: seq<nat>)
    requires AllSent(s) && Agrees(s, d) && M.Proc(s, p) == M.Sweeping(pool, items) && QueueIs(rules, d, pool)
    requires Ready(s, pool, items) && Fresh(s, msgs) && |items| == |msgs|
    ensures var t := SweepDone(rules, s, p, msgs);
      Agrees(t, AfterSweep(rules.conf, d, Sweeping.AllocsOf(PageKeys(items)))) && M.Proc(t, p) == M.Sweeping(pool, [])
    decreases |items|
  {
    if items == [] {
      assert PageKeys(items) == {};
      Sweeping.NothingChanges(rules.conf, d);
    } else {
      hide Agrees, AllSent, Ready, Fresh, QueueIs, M.Proc, ItemDone, AfterSweep, PageKeys, M.Expelling,
        Sweeping.AllocsOf, Sweeping.ForOne, Both, Sweeping.Apart;
      FirstItem(rules, s, d, p, pool, items, msgs);
      var d1 := AfterSweep(rules.conf, d, Sweeping.ForOne(items[0].pk, true, true));
      PageRefines(rules, ItemDone(rules, s, p, msgs[0]), d1, p, pool, items[1..], msgs[1..]);
      DistinctItems(s, pool, items);
      FirstAndRest(items);
      Sweeping.SweepsCompose(rules.conf, d, Sweeping.ForOne(items[0].pk, true, true),
          Sweeping.AllocsOf(PageKeys(items[1..])));
    }
  }

  lemma DistinctItems(s: M.State, pool: string, items: seq<M.Item>)
    requires Ready(s, pool, items)
    ensures forall i, j | 0 <= i < j < |items| :: items[i].pk != items[j].pk
  {
  }

  /** A page of rows as they are stored now, each listed once. */
  predicate Current(s: M.State, pool: string, items: seq<M.Item>) {
    && (forall i | 0 <= i < |items| ::
          items[i].pk.pool == pool && items[i].pk in s.allocs && s.allocs[items[i].pk] == items[i].row)
    && (forall i, j | 0 <= i < j < |items| :: items[i].pk != items[j].pk)
  }

  lemma CurrentIsReady(rules: M.Rules, steps: seq<M.Step>, pool: string, items: seq<M.Item>)
    requires Current(G.Reached(rules, steps), pool, items)
    ensures Ready(G.Reached(rules, steps), pool, items)
  {
    var s := G.Reached(rules, steps);
    G.Reachable(rules, steps);
    G.RowsAreSound(rules, steps);
    forall i | 0 <= i < |items| ensures items[i].pk in s.recorded {
      assert M.Seen(s, M.Item(items[i].pk, s.allocs[items[i].pk]));
    }
  }

  lemma ReachedIsSent(rules: M.Rules, steps: seq<M.Step>)
    ensures AllSent(G.Reached(rules, steps))
  {
    G.Reachable(rules, steps);
    WholeIsSent(rules, G.Reached(rules, steps));
  }

  /** From any reachable state: a sweeper that is left alone for a page does to the tables and
      queues exactly what the closed form of a sweep says for the set of its items, in
      whatever order it has them and whether or not their workers still exist. */
  lemma SweepRefines(rules: M.Rules, steps: seq<M.Step>, d: Db, p: nat, pool: string, items: seq<M.Item>,
      msgs: seq<nat>)
    requires var s := G.Reached(rules, steps);
      && Agrees(s, d) && M.Proc(s, p) == M.Sweeping(pool, items) && QueueIs(rules, d, pool)
      && Current(s, pool, items) && Fresh(s, msgs) && |items| == |msgs|
    ensures var t := SweepDone(rules, G.Reached(rules, steps), p, msgs);
      Agrees(t, AfterSweep(rules.conf, d, Sweeping.AllocsOf(PageKeys(items)))) && M.Proc(t, p) == M.Sweeping(pool, [])
  {
    hide *;
    ReachedIsSent(rules, steps);
    CurrentIsReady(rules, steps, pool, items);
    PageRefines(rules, G.Reached(rules, steps), d, p, pool, items, msgs);
  }

  // A completion.

  function CompleteDone(rules: M.Rules, s: M.State, p: nat, k: AllocPK): M.State
    requires k in s.allocs
  {
    var t := M.Next(rules, s, M.Release(p, M.Look(M.Item(k, s.allocs[k]))));
    Freed(rules, t, p, Host(k, s.allocs[k]))
  }

  lemma LookState(rules: M.Rules, s: M.State, p: nat, item: M.Item)
    requires M.AtRest(M.Proc(s, p)) && M.Seen(s, item)
    ensures var t := M.Next(rules, s, M.Release(p, M.Look(item)));
      && t.workers == s.workers && t.allocs == s.allocs && t.notices == s.notices && t.recorded == s.recorded
      && t.sent == s.sent && t.evals == s.evals && t.dead == s.dead
      && M.Proc(t, p) == M.Deleting(item.pk.pool, item, [], true)
  {
  }

  lemma CompletedState(rules: M.Rules, s: M.State, d: Db, p: nat, k: AllocPK)
    requires AllSent(s) && Agrees(s, d) && M.AtRest(M.Proc(s, p)) && k in s.allocs && M.Seen(s, M.Item(k, s.allocs[k]))
    requires Active(d, k.pool)
    ensures Agrees(CompleteDone(rules, s, p, k), Completed(d, k))
  {
    var item := M.Item(k, s.allocs[k]);
    LookState(rules, s, p, item);
    var t := M.Next(rules, s, M.Release(p, M.Look(item)));
    FreedState(rules, t, p, item, [], true);
    hide M.Next, M.Proc, Freed;
    EvalsSame(s, Freed(rules, t, p, Host(k, item.row)));
  }

  /** From any reachable state: a completion that is left alone does what the request does. */
  lemma CompleteRefines(rules: M.Rules, steps: seq<M.Step>, d: Db, p: nat, k: AllocPK)
    requires var s := G.Reached(rules, steps);
      Agrees(s, d) && M.AtRest(M.Proc(s, p)) && k in s.allocs && Active(d, k.pool)
    ensures Agrees(CompleteDone(rules, G.Reached(rules, steps), p, k), Completed(d, k))
  {
    var s := G.Reached(rules, steps);
    G.Reachable(rules, steps);
    assert M.Seen(s, M.Item(k, s.allocs[k]));
    hide *;
    ReachedIsSent(rules, steps);
    CompletedState(rules, s, d, p, k);
  }

  // One round of a scheduler.

  lemma ReceiveAndClaim(rules: M.Rules, s: M.State, p: nat, msg: nat, w: WorkerPK)
    requires M.AtRest(M.Proc(s, p)) && msg in s.sent && s.sent[msg].queue == PoolQueue(rules.conf, w.pool)
    requires w in s.workers && s.workers[w].capacity >= Normalised(s.sent[msg].eval).size
    ensures var e := Normalised(s.sent[msg].eval);
      var t := M.Next(rules, M.Next(rules, s, M.Schedule(p, M.Receive(w.pool, msg))), M.Schedule(p, M.Claim(w)));
      && t.workers == Credited(s.workers, w, -e.size) && M.Proc(t, p) == M.Claimed(w.pool, msg, Attempted(e), w)
      && t.allocs == s.allocs && t.evals == s.evals && t.sent == s.sent && t.notices == s.notices
      && t.recorded == s.recorded
      && t.dead == s.dead
  {
    var e := Normalised(s.sent[msg].eval);
    var u := M.Next(rules, s, M.Schedule(p, M.Receive(w.pool, msg)));
    assert u == s.(procs := s.procs[p := M.Received(w.pool, msg, e)]);
  }

  lemma PutState(rules: M.Rules, s: M.State, p: nat, msg: nat, e: Eval, w: WorkerPK, id: string, ttl: int)
    requires M.Proc(s, p) == M.Claimed(w.pool, msg, e, w) && msg in s.sent && AllocPK(w.pool, id) !in s.recorded
    ensures var t := M.Next(rules, s, M.Schedule(p, M.Put(id, ttl))); var k := AllocPK(w.pool, id);
      && t.workers == s.workers && t.evals == s.evals && t.sent == s.sent && t.notices == s.notices && t.dead == s.dead
      && t.allocs == s.allocs[k := Alloc(ttl, w.worker, Some(e))]
      && k in t.recorded && t.recorded[k].host == w && M.Proc(t, p) == M.Recorded(w.pool, msg, k)
  {
  }

  lemma TellAndAck(rules: M.Rules, s: M.State, p: nat, msg: nat, w: WorkerPK, k: AllocPK)
    requires M.Proc(s, p) == M.Recorded(w.pool, msg, k)
    requires k in s.recorded && s.recorded[k].host == w && k.pool == w.pool
    requires WorkerQueue(rules.conf, w) in s.notices && PoolQueue(rules.conf, w.pool) in s.evals
    ensures var t := M.Next(rules, M.Next(rules, s, M.Schedule(p, M.Tell)), M.Schedule(p, M.Ack));
      var q, n := PoolQueue(rules.conf, w.pool), WorkerQueue(rules.conf, w);
      && t.workers == s.workers && t.allocs == s.allocs && t.sent == s.sent && t.dead == s.dead
      && t.notices == s.notices[n := s.notices[n] + multiset{Notice(k.pool, k.alloc, w.worker)}]
      && t.evals == s.evals[q := s.evals[q] - {msg}]
  {
    var u := M.Next(rules, s, M.Schedule(p, M.Tell));
    assert M.Proc(u, p) == M.Told(w.pool, msg, k) && u.evals == s.evals && u.sent == s.sent && u.workers == s.workers
        && u.allocs == s.allocs && u.dead == s.dead;
  }

  /** Receive and claim, record the alloc, tell the worker and acknowledge, with no step
      of another process in between. */
  function Round(rules: M.Rules, s: M.State, p: nat, msg: nat, w: WorkerPK, id: string, ttl: int): M.State {
    var t1 := M.Next(rules, s, M.Schedule(p, M.Receive(w.pool, msg)));
    var t2 := M.Next(rules, t1, M.Schedule(p, M.Claim(w)));
    var t3 := M.Next(rules, t2, M.Schedule(p, M.Put(id, ttl)));
    var t4 := M.Next(rules, t3, M.Schedule(p, M.Tell));
    M.Next(rules, t4, M.Schedule(p, M.Ack))
  }

  predicate CanRound(rules: M.Rules, s: M.State, p: nat, msg: nat, w: WorkerPK, id: string) {
    var q := PoolQueue(rules.conf, w.pool);
    && M.AtRest(M.Proc(s, p)) && AllocPK(w.pool, id) !in s.recorded
    && q in s.evals && msg in s.evals[q] && msg in s.sent && s.sent[msg].queue == q
    && w in s.workers && s.workers[w].capacity >= Normalised(s.sent[msg].eval).size
    && WorkerQueue(rules.conf, w) in s.notices
  }

  /** The tables of `t` are those of `s` after eval `msg` was placed on worker `w` as
      alloc `k`, with nothing else changed. */
  predicate HasPlaced(rules: M.Rules, s: M.State, t: M.State, msg: nat, w: WorkerPK, k: AllocPK, ttl: int) {
    var q, n := PoolQueue(rules.conf, w.pool), WorkerQueue(rules.conf, w);
    && msg in s.sent && q in s.evals && n in s.notices
    && var e := Normalised(s.sent[msg].eval);
    && t.workers == Credited(s.workers, w, -e.size)
    && t.allocs == s.allocs[k := Alloc(ttl, w.worker, Some(Attempted(e)))]
    && t.notices == s.notices[n := s.notices[n] + multiset{Notice(k.pool, k.alloc, w.worker)}]
    && t.evals == s.evals[q := s.evals[q] - {msg}] && t.sent == s.sent && t.dead == s.dead
  }

  lemma RoundState(rules: M.Rules, s: M.State, p: nat, msg: nat, w: WorkerPK, id: string, ttl: int)
    requires CanRound(rules, s, p, msg, w, id)
    ensures HasPlaced(rules, s, Round(rules, s, p, msg, w, id, ttl), msg, w, AllocPK(w.pool, id), ttl)
  {
    ReceiveAndClaim(rules, s, p, msg, w);
    var t2 := M.Next(rules, M.Next(rules, s, M.Schedule(p, M.Receive(w.pool, msg))), M.Schedule(p, M.Claim(w)));
    PutState(rules, t2, p, msg, Attempted(Normalised(s.sent[msg].eval)), w, id, ttl);
    TellAndAck(rules, M.Next(rules, t2, M.Schedule(p, M.Put(id, ttl))), p, msg, w, AllocPK(w.pool, id));
  }

  lemma AnnouncedFields(conf: Conf, d: Db, now: int, e: Eval, q: string, w: WorkerPK, k: AllocPK)
    requires w in d.workers && q in d.evals && WorkerQueue(conf, w) in d.notices && k.pool == w.pool
    ensures var after := Announced(conf, Placed(conf, d, now, e, w, k), q, e, w, k); var n := WorkerQueue(conf, w);
      && after.workers == Credited(d.workers, w, -Normalised(e).size)
      && after.allocs == d.allocs[k := Alloc(now + conf.allocTTL, w.worker, Some(Attempted(Normalised(e))))]
      && after.notices == d.notices[n := d.notices[n] + multiset{Notice(k.pool, k.alloc, w.worker)}]
      && after.evals == d.evals[q := d.evals[q] - multiset{e}] && after.dead == d.dead
  {
    hide Credited, Normalised, Attempted, WorkerQueue;
  }

  lemma Places(rules: M.Rules, s: M.State, t: M.State, d: Db, msg: nat, w: WorkerPK, k: AllocPK, now: int)
    requires AllSent(s) && Agrees(s, d) && k.pool == w.pool && w in s.workers
    requires HasPlaced(rules, s, t, msg, w, k, now + rules.conf.allocTTL)
    requires msg in s.evals[PoolQueue(rules.conf, w.pool)]
    ensures Agrees(t, Announced(rules.conf, Placed(rules.conf, d, now, s.sent[msg].eval, w, k),
                                PoolQueue(rules.conf, w.pool), s.sent[msg].eval, w, k))
  {
    hide Announced, Placed, Credited, Normalised, Attempted, WorkerQueue;
    var q := PoolQueue(rules.conf, w.pool);
    EvalsLess(s, t, q, msg);
    assert q in d.evals;
    AnnouncedFields(rules.conf, d, now, s.sent[msg].eval, q, w, k);
    hide Evals, AllSent, Merged, PoolQueue;
  }

  /** From any reachable state: a scheduler that is left alone for one round does to the
      tables and queues what a delivered round does at request level. */
  lemma RoundRefines(rules: M.Rules, steps: seq<M.Step>, d: Db, p: nat, msg: nat, w: WorkerPK, id: string, now: int)
    requires var s := G.Reached(rules, steps); Agrees(s, d) && CanRound(rules, s, p, msg, w, id)
    ensures var s := G.Reached(rules, steps);
      && msg in s.sent && var e := s.sent[msg].eval;
      && w in d.workers && PoolQueue(rules.conf, w.pool) in d.evals && WorkerQueue(rules.conf, w) in d.notices
      && Agrees(Round(rules, s, p, msg, w, id, now + rules.conf.allocTTL),
                Announced(rules.conf, Placed(rules.conf, d, now, e, w, AllocPK(w.pool, id)),
                          PoolQueue(rules.conf, w.pool), e, w, AllocPK(w.pool, id)))
  {
    hide *;
    var s := G.Reached(rules, steps);
    CanRoundHas(rules, s, d, p, msg, w, id);
    ReachedIsSent(rules, steps);
    RoundState(rules, s, p, msg, w, id, now + rules.conf.allocTTL);
    Places(rules, s, Round(rules, s, p, msg, w, id, now + rules.conf.allocTTL), d, msg, w, AllocPK(w.pool, id), now);
  }

  lemma CanRoundHas(rules: M.Rules, s: M.State, d: Db, p: nat, msg: nat, w: WorkerPK, id: string)
    requires Agrees(s, d) && CanRound(rules, s, p, msg, w, id)
    ensures msg in s.sent && w in d.workers
    ensures PoolQueue(rules.conf, w.pool) in d.evals && WorkerQueue(rules.conf, w) in d.notices
    ensures w in s.workers && PoolQueue(rules.conf, w.pool) in s.evals && msg in s.evals[PoolQueue(rules.conf, w.pool)]
  {
  }

  // Requests that write one queue and at most one row.

  lemma SubmittedState(rules: M.Rules, s: M.State, pool: string, dataset: string, size: int, msg: nat)
    requires M.Servable(rules, s, M.Submit(pool, dataset, size, msg))
    ensures var t := M.Next(rules, s, M.Serve(M.Submit(pool, dataset, size, msg))); var q := PoolQueue(rules.conf,
      pool);
      && t.workers == s.workers && t.allocs == s.allocs && t.notices == s.notices && t.dead == s.dead
      && msg !in s.sent && msg in t.sent && t.sent == s.sent[msg := t.sent[msg]]
      && t.sent[msg].eval == Eval(dataset, size, 0)
      && q in s.evals && t.evals == s.evals[q := s.evals[q] + {msg}]
  {
  }

  /** From any reachable state: an evaluation request of the machine does what the request
      does. */
  lemma SubmitRefines(rules: M.Rules, steps: seq<M.Step>, d: Db, pool: string, dataset: string, size: int, msg: nat)
    requires var s := G.Reached(rules, steps);
      Agrees(s, d) && Active(d, pool) && QueueIs(rules, d, pool)
          && M.Servable(rules, s, M.Submit(pool, dataset, size, msg))
    ensures Agrees(M.Next(rules, G.Reached(rules, steps), M.Serve(M.Submit(pool, dataset, size, msg))),
                   Submitted(d, pool, Eval(dataset, size, 0)))
  {
    var s := G.Reached(rules, steps);
    ReachedIsSent(rules, steps);
    SubmittedState(rules, s, pool, dataset, size, msg);
    hide M.Next, M.Servable, G.Reached, M.Run;
    EvalsMore(s, M.Next(rules, s, M.Serve(M.Submit(pool, dataset, size, msg))), PoolQueue(rules.conf, pool), msg);
    hide Evals;
  }

  lemma EmptyQueue(t: M.State, q: string)
    requires q in t.evals && t.evals[q] == {}
    ensures QueuedEvals(t, q) == multiset{}
  {
    assert Bodies(t, q) == map[];
  }

  lemma NoEvals(s: M.State, t: M.State, q: string)
    requires AllSent(s) && q !in s.evals && t.evals == s.evals[q := {}] && t.sent == s.sent
    ensures Evals(t) == Evals(s)[q := multiset{}]
  {
    forall r | r in s.evals
      ensures QueuedEvals(t, r) == QueuedEvals(s, r)
    {
      QueuedSame(s, t, r);
    }
    EmptyQueue(t, q);
    hide QueuedEvals, Bodies, AllSent, Evals;
    EvalsPut(s, t, q);
  }

  lemma FewerEvals(s: M.State, t: M.State, q: string)
    requires AllSent(s) && t.evals == s.evals - {q} && t.sent == s.sent
    ensures Evals(t) == Evals(s) - {q}
  {
    forall r | r in t.evals
      ensures QueuedEvals(t, r) == QueuedEvals(s, r)
    {
      QueuedSame(s, t, r);
    }
    hide QueuedEvals, Bodies;
  }

  lemma CreatedState(rules: M.Rules, s: M.State, id: string)
    requires M.Servable(rules, s, M.AddPoolQueue(id))
    ensures var t := M.Next(rules, s, M.Serve(M.AddPoolQueue(id)));
      && t.workers == s.workers && t.allocs == s.allocs && t.notices == s.notices && t.dead == s.dead
      && t.sent == s.sent && t.evals == s.evals[PoolQueue(rules.conf, id) := {}]
      && PoolQueue(rules.conf, id) !in s.poolQueues
  {
  }

  lemma CreatedFields(conf: Conf, d: Db, id: string)
    requires PoolQueue(conf, id) !in d.evals
    ensures var after := CreatedPool(conf, d, id);
      && after.evals == d.evals[PoolQueue(conf, id) := multiset{}]
      && after.workers == d.workers && after.allocs == d.allocs && after.notices == d.notices && after.dead == d.dead
  {
    hide PoolQueue;
    if id in d.pools {
    } else {
    }
  }

  lemma NewQueueAgrees(conf: Conf, s: M.State, t: M.State, d: Db, id: string)
    requires Agrees(s, d) && PoolQueue(conf, id) !in s.evals
    requires t.workers == s.workers && t.allocs == s.allocs && t.notices == s.notices && t.dead == s.dead
    requires Evals(t) == Evals(s)[PoolQueue(conf, id) := multiset{}]
    ensures Agrees(t, CreatedPool(conf, d, id))
  {
    assert PoolQueue(conf, id) !in d.evals;
    hide Evals, Merged, PoolQueue, CreatedPool;
    CreatedFields(conf, d, id);
  }

  lemma QueueIsNew(rules: M.Rules, steps: seq<M.Step>, q: string)
    requires q !in G.Reached(rules, steps).poolQueues
    ensures q !in G.Reached(rules, steps).evals
  {
    G.Reachable(rules, steps);
    NotThere(rules, G.Reached(rules, steps), q);
  }

  /** From any reachable state: the queue of a new pool is created as by the request. */
  lemma CreateRefines(rules: M.Rules, steps: seq<M.Step>, d: Db, id: string)
    requires var s := G.Reached(rules, steps); Agrees(s, d) && M.Servable(rules, s, M.AddPoolQueue(id))
    ensures Agrees(M.Next(rules, G.Reached(rules, steps), M.Serve(M.AddPoolQueue(id))), CreatedPool(rules.conf, d, id))
  {
    hide *;
    var s, q := G.Reached(rules, steps), PoolQueue(rules.conf, id);
    ReachedIsSent(rules, steps);
    CreatedState(rules, s, id);
    QueueIsNew(rules, steps, q);
    NoEvals(s, M.Next(rules, s, M.Serve(M.AddPoolQueue(id))), q);
    NewQueueAgrees(rules.conf, s, M.Next(rules, s, M.Serve(M.AddPoolQueue(id))), d, id);
  }

  lemma NotThere(rules: M.Rules, s: M.State, q: string)
    requires I.Whole(rules, s) && q !in s.poolQueues
    ensures q !in s.evals
  {
    assert q in s.evals ==> I.QueueOk(s, q);
  }

  /** From any reachable state: disbanding removes the pool's queue as the request does. */
  lemma DisbandRefines(rules: M.Rules, steps: seq<M.Step>, d: Db, id: string, now: int)
    requires Agrees(G.Reached(rules, steps), d)
    ensures Agrees(M.Next(rules, G.Reached(rules, steps), M.Serve(M.DropPoolQueue(id))),
                   DisbandedPool(rules.conf, d, now, id))
  {
    var s := G.Reached(rules, steps);
    var q := PoolQueue(rules.conf, id);
    ReachedIsSent(rules, steps);
    var t := M.Next(rules, s, M.Serve(M.DropPoolQueue(id)));
    assert t == s.(evals := s.evals - {q});
    hide M.Next, G.Reached, M.Run;
    FewerEvals(s, t, q);
    hide Evals;
  }

  /** A registration: the worker's queue, then its row. */
  function RegisterDone(rules: M.Rules, s: M.State, w: WorkerPK, capacity: int, ttl: int): M.State {
    var t := M.Next(rules, s, M.Serve(M.AddWorkerQueue(w)));
    M.Next(rules, t, M.Serve(M.AddWorker(w, capacity, ttl)))
  }

  lemma RegisteredState(rules: M.Rules, s: M.State, w: WorkerPK, capacity: int, ttl: int)
    requires M.Servable(rules, s, M.AddWorkerQueue(w)) && capacity >= 0
    ensures var t := RegisterDone(rules, s, w, capacity, ttl); var q := WorkerQueue(rules.conf, w);
      && t.workers == s.workers[w := Worker(capacity, q, ttl)] && t.notices == s.notices[q := multiset{}]
      && q !in s.notices && t.allocs == s.allocs && t.evals == s.evals && t.sent == s.sent && t.dead == s.dead
  {
    var u := M.Next(rules, s, M.Serve(M.AddWorkerQueue(w)));
    assert u == s.(notices := s.notices[WorkerQueue(rules.conf, w) := multiset{}]);
  }

  /** From any reachable state: the registration of a new worker in an active pool stores its
      row and creates its queue as the request does. */
  lemma RegisterRefines(rules: M.Rules, steps: seq<M.Step>, d: Db, w: WorkerPK, capacity: int, now: int)
    requires var s := G.Reached(rules, steps);
      Agrees(s, d) && Active(d, w.pool) && M.Servable(rules, s, M.AddWorkerQueue(w)) && capacity >= 0
    ensures Agrees(RegisterDone(rules, G.Reached(rules, steps), w, capacity, now + rules.conf.workerTTL),
                   Registered(rules.conf, d, now, w, capacity))
  {
    var s := G.Reached(rules, steps);
    ReachedIsSent(rules, steps);
    RegisteredState(rules, s, w, capacity, now + rules.conf.workerTTL);
    hide M.Next, M.Servable, G.Reached, M.Run, RegisterDone;
    EvalsSame(s, RegisterDone(rules, s, w, capacity, now + rules.conf.workerTTL));
    hide Evals;
  }

  // Heartbeats, and the removal of a worker.

  /** The alloc renewals of a heartbeat. */
  function TouchesDone(rules: M.Rules, s: M.State, pool: string, ids: seq<string>, ttl: int): M.State {
    if ids == [] then s
    else
      var n := |ids| - 1;
      M.Next(rules, TouchesDone(rules, s, pool, ids[..n], ttl), M.Serve(M.TouchAlloc(AllocPK(pool, ids[n]), ttl)))
  }

  lemma {:induction false} TouchesState(rules: M.Rules, s: M.State, pool: string, ids: seq<string>, ttl: int)
    requires forall i | 0 <= i < |ids| :: AllocPK(pool, ids[i]) in s.allocs
    ensures var t := TouchesDone(rules, s, pool, ids, ttl);
      && t.allocs == Renewed(s.allocs, Claims(pool, ids), ttl)
      && t.workers == s.workers && t.notices == s.notices && t.evals == s.evals && t.sent == s.sent && t.dead == s.dead
    decreases |ids|
  {
    if ids == [] {
      assert Renewed(s.allocs, Claims(pool, []), ttl) == s.allocs;
    } else {
      var n := |ids| - 1;
      TouchesState(rules, s, pool, ids[..n], ttl);
      var u, k := TouchesDone(rules, s, pool, ids[..n], ttl), AllocPK(pool, ids[n]);
      TouchState(rules, u, k, ttl);
      assert ids == ids[..n] + [ids[n]];
      assert Claims(pool, ids) == Claims(pool, ids[..n]) + {k};
      RenewedMore(s.allocs, Claims(pool, ids[..n]), k, ttl);
    }
  }

  lemma RenewedMore(allocs: map<AllocPK, Alloc>, ks: set<AllocPK>, k: AllocPK, ttl: int)
    requires k in allocs
    ensures var was := Renewed(allocs, ks, ttl);
      k in was && Renewed(allocs, ks + {k}, ttl) == was[k := was[k].(ttl := ttl)]
  {
  }

  lemma TouchState(rules: M.Rules, s: M.State, k: AllocPK, ttl: int)
    requires k in s.allocs
    ensures M.Next(rules, s, M.Serve(M.TouchAlloc(k, ttl))) == s.(allocs := s.allocs[k := s.allocs[k].(ttl := ttl)])
  {
  }

  lemma TouchWorkerState(rules: M.Rules, s: M.State, w: WorkerPK, ttl: int)
    requires w in s.workers
    ensures M.Next(rules, s, M.Serve(M.TouchWorker(w, ttl))) == s.(workers := s.workers[w := s.workers[w].(ttl := ttl)])
  {
  }

  lemma BeatenFields(conf: Conf, d: Db, now: int, w: WorkerPK, datasets: seq<string>, ids: seq<string>)
    requires w in d.workers
    ensures var t := Beaten(conf, d, now, w, datasets, ids);
      && t.workers == d.workers[w := d.workers[w].(ttl := now + conf.workerTTL)]
      && t.allocs == Renewed(d.allocs, Claims(w.pool, ids), now + conf.allocTTL)
      && t.notices == d.notices && t.evals == d.evals && t.dead == d.dead
  {
    hide Renewed, Claims, Copied;
  }

  /** From any reachable state: a worker's heartbeat changes the tables of the machine as the
      request does, for allocs that exist. */
  lemma BeatRefines(rules: M.Rules, steps: seq<M.Step>, d: Db, w: WorkerPK, datasets: seq<string>, ids: seq<string>,
      now: int)
    requires var s := G.Reached(rules, steps);
      Agrees(s, d) && w in s.workers && forall i | 0 <= i < |ids| :: AllocPK(w.pool, ids[i]) in s.allocs
    ensures w in d.workers
    ensures var u := M.Next(rules, G.Reached(rules, steps), M.Serve(M.TouchWorker(w, now + rules.conf.workerTTL)));
      Agrees(TouchesDone(rules, u, w.pool, ids, now + rules.conf.allocTTL),
             Beaten(rules.conf, d, now, w, datasets, ids))
  {
    var s := G.Reached(rules, steps);
    ReachedIsSent(rules, steps);
    hide G.Reached, M.Run, M.Next, TouchesDone, Renewed, Claims, Copied, Beaten, AllSent, Merged, Evals;
    TouchWorkerState(rules, s, w, now + rules.conf.workerTTL);
    var u := M.Next(rules, s, M.Serve(M.TouchWorker(w, now + rules.conf.workerTTL)));
    TouchesState(rules, u, w.pool, ids, now + rules.conf.allocTTL);
    EvalsSame(s, TouchesDone(rules, u, w.pool, ids, now + rules.conf.allocTTL));
    BeatenFields(rules.conf, d, now, w, datasets, ids);
  }

  /** The removal of an expired worker: its queue, then its row. */
  function DropDone(rules: M.Rules, s: M.State, w: WorkerPK): M.State {
    M.Next(rules, M.Next(rules, s, M.Serve(M.DropWorkerQueue(w))), M.Serve(M.DropWorker(w)))
  }

  lemma DropState(rules: M.Rules, s: M.State, w: WorkerPK)
    requires w in s.workers
    ensures DropDone(rules, s, w) == s.(workers := s.workers - {w}, notices := s.notices - {WorkerQueue(rules.conf, w)})
  {
  }

  /** From any reachable state: the machine removes an expired worker as the sweep does. */
  lemma DropRefines(rules: M.Rules, steps: seq<M.Step>, d: Db, w: WorkerPK)
    requires Agrees(G.Reached(rules, steps), d) && w in d.workers
    ensures Agrees(DropDone(rules, G.Reached(rules, steps), w),
                   AfterSweep(rules.conf, d, NOTHING_SWEPT.(queues := {w}, workers := {w})))
  {
    var s := G.Reached(rules, steps);
    ReachedIsSent(rules, steps);
    DropState(rules, s, w);
    hide G.Reached, M.Run, DropDone;
    EvalsSame(s, DropDone(rules, s, w));
    hide Evals;
    Sweeper.FewerWorkers(rules.conf, d, {w}, {w});
    assert QueuesOf(rules.conf, {w}) == {WorkerQueue(rules.conf, w)};
    hide AfterSweep;
  }
}
