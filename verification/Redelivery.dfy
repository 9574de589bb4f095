/** A message that is never deleted is delivered again, and nothing bounds how often: one
    evaluation can be placed any number of times. */
module Redelivery {
  import opened Types
  import opened Names
  import opened Machine
  import opened Integrity
  import opened Guarantees
  import opened Oversubscription

  /** One evaluation of size 1 is still queued; the worker has room for `room` copies. */
  ghost predicate StillQueued(rules: Rules, s: State, w: WorkerPK, room: int) {
    var q := PoolQueue(rules.conf, w.pool);
    && 0 in s.sent && s.sent[0] == Message(q, Eval("", 1, 0), 0) && s.home == map[0 := q]
    && q in s.evals && 0 in s.evals[q]
    && w in s.workers && s.workers[w].capacity == room && AtRest(Proc(s, 0))
  }

  lemma CrashStep(rules: Rules, s: State, p: nat, pool: string, msg: nat, k: AllocPK)
    requires Proc(s, p) == Recorded(pool, msg, k)
    ensures Next(rules, s, Crash(p)) == s.(procs := s.procs[p := Idle])
  {
  }

  lemma StaysQueued(rules: Rules, s: State, u: State, w: WorkerPK, room: int, at: Process)
    requires StillQueued(rules, s, w, room) && OnlyMoved(s, u, 0, at) && u.workers == Raise(s, w, -1).workers
    ensures StillQueued(rules, u.(procs := u.procs[0 := Idle]), w, room - 1)
  {
  }

  /** A scheduler receives the message, claims capacity, records the alloc, and stops. */
  lemma PlaceAgain(rules: Rules, s: State, w: WorkerPK, room: int, id: string, ttl: int) returns (steps: seq<Step>)
    requires StillQueued(rules, s, w, room) && room >= 1 && AllocPK(w.pool, id) !in s.recorded
    ensures var t := Run(rules, s, steps); var k := AllocPK(w.pool, id);
      && StillQueued(rules, t, w, room - 1)
      && t.allocs.Keys == s.allocs.Keys + {k} && t.recorded.Keys == s.recorded.Keys + {k}
  {
    hide Run, Next;
    var k := AllocPK(w.pool, id);
    var place := PlaceRun(rules, s, 0, 0, w, id, ttl);
    var u := Run(rules, s, place);
    StaysQueued(rules, s, u, w, room, Recorded(w.pool, 0, k));
    hide StillQueued, AtRest;
    RunOne(rules, s, place, Crash(0));
    CrashStep(rules, u, 0, w.pool, 0, k);
    steps := place + [Crash(0)];
  }

  lemma NoSteps(rules: Rules, s: State)
    ensures Run(rules, s, []) == s
  {
  }

  function Rows(pool: string, ids: seq<string>): set<AllocPK> {
    set id | id in ids :: AllocPK(pool, id)
  }

  predicate Distinct(ids: seq<string>) {
    forall i, j | 0 <= i < j < |ids| :: ids[i] != ids[j]
  }

  lemma RowsSplit(pool: string, ids: seq<string>)
    requires ids != [] && Distinct(ids)
    ensures Rows(pool, ids) == {AllocPK(pool, ids[0])} + Rows(pool, ids[1..])
    ensures Distinct(ids[1..]) && AllocPK(pool, ids[0]) !in Rows(pool, ids[1..])
  {
  }

  lemma {:induction false} RowsSize(pool: string, ids: seq<string>)
    requires Distinct(ids)
    ensures |Rows(pool, ids)| == |ids|
  {
    if ids == [] {
      assert Rows(pool, ids) == {};
    } else {
      RowsSplit(pool, ids);
      RowsSize(pool, ids[1..]);
    }
  }

  lemma {:induction false} PlaceMany(rules: Rules, s: State, w: WorkerPK, ids: seq<string>, ttl: int)
    returns (steps: seq<Step>)
    requires StillQueued(rules, s, w, |ids|) && Distinct(ids) && s.recorded.Keys !! Rows(w.pool, ids)
    ensures var t := Run(rules, s, steps);
      StillQueued(rules, t, w, 0) && t.allocs.Keys == s.allocs.Keys + Rows(w.pool, ids)
    decreases |ids|
  {
    hide StillQueued, Run;
    if ids == [] {
      steps := [];
      NoSteps(rules, s);
      assert Rows(w.pool, ids) == {};
    } else {
      RowsSplit(w.pool, ids);
      hide Rows, Distinct;
      var first := PlaceAgain(rules, s, w, |ids|, ids[0], ttl);
      var rest := PlaceMany(rules, Run(rules, s, first), w, ids[1..], ttl);
      RunAppend(rules, s, first, rest);
      steps := first + rest;
    }
  }

  lemma OneEvaluation(rules: Rules, w: WorkerPK, capacity: nat, ttl: int) returns (steps: seq<Step>)
    requires IsId(w.pool) && IsId(w.worker)
    ensures var t := Reached(rules, steps);
      StillQueued(rules, t, w, capacity) && t.allocs == map[] && t.recorded == map[]
  {
    steps := RegisterRun(rules, w, capacity, ttl);
    hide Run;
    RunOne(rules, INITIAL, steps, Serve(Submit(w.pool, "", 1, 0)));
    steps := steps + [Serve(Submit(w.pool, "", 1, 0))];
  }

  /** For every configuration, worker and lease and any number of distinct alloc ids there is
      a run in which a single accepted evaluation has a live alloc under each of these ids at
      once, and its message is still queued. */
  lemma PlacedWithoutBound(rules: Rules, w: WorkerPK, ids: seq<string>, ttl: int) returns (steps: seq<Step>)
    requires IsId(w.pool) && IsId(w.worker) && Distinct(ids)
    ensures var s := Reached(rules, steps);
      |s.home| == 1 && s.allocs.Keys == Rows(w.pool, ids) && |s.allocs.Keys| == |ids|
      && forall k | k in s.allocs :: k in s.recorded && s.recorded[k].lineage in s.home
    ensures var s := Reached(rules, steps); var q := PoolQueue(rules.conf, w.pool); q in s.evals && 0 in s.evals[q]
  {
    RowsSize(w.pool, ids);
    var setup := OneEvaluation(rules, w, |ids|, ttl);
    var rest := PlaceMany(rules, Reached(rules, setup), w, ids, ttl);
    RunAppend(rules, INITIAL, setup, rest);
    steps := setup + rest;
    Reachable(rules, steps);
    var s := Reached(rules, steps);
    forall k | k in s.allocs ensures k in s.recorded && s.recorded[k].lineage in s.home {
      assert Seen(s, Item(k, s.allocs[k])) && RecordOk(rules, s, k);
    }
  }
}
