/** Turning queued evals into allocs: query the capacity index, take the candidate with
    the most room, claim it, record the alloc, tell the worker, delete the message. */
module Scheduler {
  import opened Types
  import opened Names
  import opened Tables
  import opened Readers
  import opened Store

  // Queries.

  lemma {:induction false} SmallestExists(workers: map<WorkerPK, Worker>, ws: set<WorkerPK>)
    requires ws != {} && ws <= workers.Keys
    ensures exists w :: w in ws && forall v | v in ws :: workers[w].capacity <= workers[v].capacity
    decreases ws
  {
    var w :| w in ws;
    if ws != {w} {
      SmallestExists(workers, ws - {w});
      var v :| v in ws - {w} && forall u | u in ws - {w} :: workers[v].capacity <= workers[u].capacity;
      var least := if workers[w].capacity <= workers[v].capacity then w else v;
      assert forall u | u in ws :: u == w || u in ws - {w};
      assert least in ws && forall u | u in ws :: workers[least].capacity <= workers[u].capacity;
    } else {
      assert forall u | u in ws :: workers[w].capacity <= workers[u].capacity;
    }
  }

  method QueryCapacity(s: Store, pool: string, size: int) returns (r: Reply, page: seq<Candidate>)
    modifies s`faults
    ensures s.faults == old(s.faults) + if r.Down? then 1 else 0
    ensures !r.Refused? && (r.Ok? ==> IsCapacityPage(s.workers, pool, size, page))
  {
    page := [];
    var up := s.Call();
    if !up { return Down, page; }
    var fit := Fitting(s.workers, pool, size);
    var rest := fit;
    while |page| < PAGE && rest != {}
      invariant |page| <= PAGE && rest <= fit && s.faults == old(s.faults)
      invariant forall i | 0 <= i < |page| :: page[i].w in fit - rest && page[i] == Indexed(s.workers, page[i].w)
      invariant forall w | w in fit - rest :: Indexed(s.workers, w) in page
      invariant forall i, j | 0 <= i < j < |page| :: page[i].w != page[j].w && page[i].capacity <= page[j].capacity
      invariant forall i, w | 0 <= i < |page| && w in rest :: page[i].capacity <= s.workers[w].capacity
      decreases rest
    {
      SmallestExists(s.workers, rest);
      var w :| w in rest && forall v | v in rest :: s.workers[w].capacity <= s.workers[v].capacity;
      page, rest := page + [Indexed(s.workers, w)], rest - {w};
    }
    r := Ok;
  }

  lemma ListingStep(page: seq<string>, rest: set<string>, id: string)
    requires Least(rest, id)
    ensures page + Listing(rest) == page + [id] + Listing(rest - {id})
  {
    LeastUnique(rest, id, First(rest));
  }

  lemma PageReached(page: seq<string>, rest: set<string>)
    requires |page| <= PAGE && (rest == {} || |page| == PAGE)
    ensures Page(page + Listing(rest)) == page
  {
  }

  method QueryReplicas(s: Store, pool: string, dataset: string) returns (r: Reply, page: seq<string>)
    modifies s`faults
    ensures s.faults == old(s.faults) + if r.Down? then 1 else 0
    ensures !r.Refused? && (r.Ok? ==> page == Page(Listing(Matching(s.replicas, pool, dataset))))
  {
    page := [];
    var up := s.Call();
    if !up { return Down, page; }
    page := FirstIds(Matching(s.replicas, pool, dataset));
    r := Ok;
  }

  method FirstIds(ids: set<string>) returns (page: seq<string>)
    ensures page == Page(Listing(ids))
  {
    page := [];
    var rest := ids;
    while |page| < PAGE && rest != {}
      invariant |page| <= PAGE && Listing(ids) == page + Listing(rest)
      decreases rest
    {
      LeastExists(rest);
      var id :| Least(rest, id);
      ListingStep(page, rest, id);
      page, rest := page + [id], rest - {id};
    }
    PageReached(page, rest);
  }

  /** The replicas of a dataset on workers of the pool, as far as one page shows them. */
  method FindReplicas(s: Store, pool: string, dataset: string) returns (r: Reply, found: seq<string>)
    modifies s`faults
    ensures s.faults == old(s.faults) + if r.Down? then 1 else 0
    ensures !r.Refused?
    ensures r.Ok? ==> found == Found(s.replicas, pool, dataset, s.now)
  {
    found := [];
    if dataset == "" { return Ok, found; }
    var page;
    r, page := QueryReplicas(s, pool, dataset);
    if r.Down? { return r, found; }
    ghost var keep := Unexpired(s.replicas, pool, s.now);
    ListingMembers(Matching(s.replicas, pool, dataset));
    for i := 0 to |page|
      invariant found == Chosen(page[..i], keep) && s.faults == old(s.faults)
    {
      assert page[..i + 1] == page[..i] + [page[i]];
      ChosenAppend(page[..i], [page[i]], keep);
      var k := ReplicaPK(pool, page[i]);
      assert page[i] in Listing(Matching(s.replicas, pool, dataset));
      if s.replicas[k] < s.now { continue; }
      found := found + [page[i]];
    }
    assert page[..|page|] == page;
  }

  // The choice of a worker.

  predicate Descending(xs: seq<Candidate>) {
    forall i, j | 0 <= i < j < |xs| :: xs[i].capacity >= xs[j].capacity
  }

  /** Sorted up to `i`, except that the element at `j` may belong further to the front. */
  predicate Sinking(xs: seq<Candidate>, i: nat, j: nat)
    requires j <= i < |xs|
  {
    forall p, q | 0 <= p < q <= i && q != j :: xs[p].capacity >= xs[q].capacity
  }

  lemma SwapKeeps(xs: seq<Candidate>, i: nat, j: nat)
    requires 0 < j <= i < |xs| && Sinking(xs, i, j) && xs[j].capacity >= xs[j - 1].capacity
    ensures var ys := xs[j := xs[j - 1]][j - 1 := xs[j]]; Sinking(ys, i, j - 1) && multiset(ys) == multiset(xs)
  {
  }

  lemma Sunk(xs: seq<Candidate>, i: nat, j: nat)
    requires j <= i < |xs| && Sinking(xs, i, j) && (j > 0 ==> xs[j].capacity < xs[j - 1].capacity)
    ensures Descending(xs[..i + 1])
  {
    forall p, q | 0 <= p < q <= i ensures xs[p].capacity >= xs[q].capacity {
      if q == j && p < j - 1 { assert xs[p].capacity >= xs[j - 1].capacity; }
    }
  }

  /** Sinks the element at `i` into the sorted part before it. */
  method Insert(a: array<Candidate>, i: nat)
    requires i < a.Length && Descending(a[..i])
    modifies a
    ensures Descending(a[..i + 1]) && multiset(a[..]) == multiset(old(a[..]))
  {
    var j := i;
    assert Sinking(a[..], i, i) by {
      assert forall p | 0 <= p < i :: a[..i][p] == a[p];
    }
    hide Descending, Sinking;
    while j > 0 && a[j].capacity >= a[j - 1].capacity
      invariant 0 <= j <= i
      invariant Sinking(a[..], i, j) && multiset(a[..]) == multiset(old(a[..]))
    {
      SwapKeeps(a[..], i, j);
      ghost var xs := a[..];
      a[j], a[j - 1] := a[j - 1], a[j];
      assert a[..] == xs[j := xs[j - 1]][j - 1 := xs[j]];
      j := j - 1;
    }
    Sunk(a[..], i, j);
    assert a[..][..i + 1] == a[..i + 1];
  }

  /** Insertion sort with the comparator "at least as much capacity", which holds of equal
      elements too: equal candidates are swapped, and it still ends and still sorts. */
  method SortSpread(a: array<Candidate>)
    modifies a
    ensures Descending(a[..]) && multiset(a[..]) == multiset(old(a[..]))
  {
    var i := 0;
    while i < a.Length
      invariant 0 <= i <= a.Length && Descending(a[..i])
      invariant multiset(a[..]) == multiset(old(a[..]))
    {
      Insert(a, i);
      i := i + 1;
    }
    assert a[..i] == a[..];
  }

  /** Skips expired rows, sorts the rest by capacity, and takes the first. */
  method Choose(page: seq<Candidate>, now: int) returns (choice: Option<Candidate>)
    ensures IsChoice(page, now, choice)
  {
    var candidates: seq<Candidate> := [];
    for i := 0 to |page|
      invariant candidates == Alive(page[..i], now)
    {
      assert page[..i + 1] == page[..i] + [page[i]];
      AliveAppend(page[..i], [page[i]], now);
      if page[i].ttl < now { continue; }
      candidates := candidates + [page[i]];
    }
    assert page[..|page|] == page;
    AliveMembers(page, now);
    if |candidates| < 1 {
      assert forall c | c in page :: c.ttl >= now ==> c in candidates;
      return None;
    }
    var a := new Candidate[|candidates|](i requires 0 <= i < |candidates| => candidates[i]);
    assert a[..] == candidates;
    SortSpread(a);
    FirstIsLargest(a[..], candidates);
    choice := Some(a[0]);
  }

  lemma FirstIsLargest(sorted: seq<Candidate>, given: seq<Candidate>)
    requires Descending(sorted) && multiset(sorted) == multiset(given) && given != []
    ensures sorted != [] && sorted[0] in given && forall d | d in given :: d.capacity <= sorted[0].capacity
  {
    assert |multiset(sorted)| == |sorted| && |multiset(given)| == |given|;
    assert sorted[0] in multiset(given);
    forall d | d in given ensures d.capacity <= sorted[0].capacity {
      assert d in multiset(sorted);
      var i :| 0 <= i < |sorted| && sorted[i] == d;
    }
  }

  /** The claim of one worker, chosen from a page of the index, is all that changed. */
  ghost predicate ClaimedOn(before: map<WorkerPK, Worker>, after: map<WorkerPK, Worker>, pool: string, size: int,
      w: WorkerPK) {
    w in before && w.pool == pool && before[w].capacity >= size && after == Credited(before, w, -size)
  }

  /** Claims the chosen worker. Ok: claimed, and the alloc is ready to be recorded.
      Refused: no candidate. Down: some call failed, possibly after the claim. */
  method Schedule(conf: Conf, s: Store, eval: Eval, pool: string)
    returns (r: Reply, row: Alloc, page: seq<Candidate>, choice: Option<Candidate>)
    modifies s`workers, s`faults
    ensures s.faults >= old(s.faults) && (r.Down? ==> s.faults > old(s.faults))
    ensures !r.Down? || choice.Some? ==>
      IsCapacityPage(old(s.workers), pool, eval.size, page) && IsChoice(page, s.now, choice)
    ensures !r.Down? ==> (choice.Some? <==> r.Ok?)
    ensures if choice.Some? then ClaimedOn(old(s.workers), s.workers, pool, eval.size, choice.value.w)
      else s.workers == old(s.workers)
    ensures r.Ok? ==> row == Alloc(s.now + conf.allocTTL, choice.value.w.worker, Some(Attempted(eval)))
    // The same read off the workers table.
    ensures choice.Some? ==> var w, was := choice.value.w, old(s.workers);
      && w in was && w.pool == pool && was[w].ttl >= s.now && was[w].capacity >= eval.size
      && s.workers == was[w := was[w].(capacity := was[w].capacity - eval.size)]
    ensures r.Ok? ==> row.eval == Some(Eval(eval.dataset, eval.size, eval.retry + 1))
    ensures |set v | v in old(s.workers) && v.pool == pool && old(s.workers)[v].capacity >= eval.size| <= 10 ==>
      && (s.faults == old(s.faults) ==> (r.Refused? <==>
            forall v | v in old(s.workers) && v.pool == pool && old(s.workers)[v].capacity >= eval.size ::
              old(s.workers)[v].ttl < s.now))
      && (choice.Some? ==>
            forall v | v in old(s.workers) && v.pool == pool && old(s.workers)[v].ttl >= s.now ::
              old(s.workers)[v].capacity <= old(s.workers)[choice.value.w].capacity)
  {
    row, choice := Alloc(0, "", None), None;
    r, page := QueryCapacity(s, pool, eval.size);
    if r.Down? { return; }
    PageSpelledOut(s.workers, pool, eval.size, page);
    var chosen := Choose(page, s.now);
    if |set v | v in s.workers && v.pool == pool && s.workers[v].capacity >= eval.size| <= 10 {
      ChoiceIsBest(s.workers, pool, eval.size, s.now, page, chosen);
    }
    hide Fitting, IsCapacityPage, IsChoice, Indexed;
    if chosen.None? { r := Refused; return; }
    var w := chosen.value.w;
    r := s.ClaimCapacity(w, eval.size);
    if !r.Ok? { return; }
    choice := chosen;
    var drawn := s.Call();
    if !drawn { r := Down; return; }
    row := Alloc(s.now + conf.allocTTL, w.worker, Some(Attempted(eval)));
  }

  /** How one round of ReceiveEvals ended. The last four are rounds in which a call failed. */
  datatype Round =
    | Nothing                               // no message was received
    | NoRoom(msg: Eval)                     // the message stays queued
    | Collided(msg: Eval, w: WorkerPK)      // capacity is claimed, the id was taken
    | Unannounced(msg: Eval, w: WorkerPK)   // the alloc is recorded, the worker's queue is gone
    | Delivered(msg: Eval, w: WorkerPK)
    | Failed                                // before capacity was claimed
    | Unrecorded(msg: Eval, w: WorkerPK)    // capacity is claimed, the alloc not recorded
    | Unsent(msg: Eval, w: WorkerPK)        // the alloc is recorded, the worker not told
    | Undeleted(msg: Eval, w: WorkerPK)     // the worker was told, the message is still queued

  predicate Faulty(round: Round) {
    round.Failed? || round.Unrecorded? || round.Unsent? || round.Undeleted?
  }

  predicate HasClaimed(round: Round) {
    !round.Nothing? && !round.NoRoom? && !round.Failed?
  }

  ghost predicate ChosenFor(db: Db, now: int, pool: string, msg: Eval, page: seq<Candidate>,
      choice: Option<Candidate>) {
    IsCapacityPage(db.workers, pool, Normalised(msg).size, page) && IsChoice(page, now, choice)
  }

  /** What a round stored, given how it ended. Only a delivered round takes its message off
      the queue; every other one leaves it to be received again. */
  ghost predicate Stored(conf: Conf, before: Db, after: Db, now: int, queue: string, k: AllocPK, round: Round) {
    if !HasClaimed(round) then after == before
    else round.w in before.workers && StoredFor(conf, before, after, now, queue, k, round)
  }

  ghost predicate StoredFor(conf: Conf, before: Db, after: Db, now: int, queue: string, k: AllocPK, round: Round)
    requires HasClaimed(round) && round.w in before.workers
  {
    var msg, w := round.msg, round.w;
    var q := WorkerQueue(conf, w);
    if round.Collided? || round.Unrecorded? then
      && (round.Collided? ==> k in before.allocs)
      && after == before.(workers := Credited(before.workers, w, -Normalised(msg).size))
    else if round.Unannounced? || round.Unsent? then
      && k !in before.allocs && (round.Unannounced? ==> q !in before.notices)
      && after == Placed(conf, before, now, msg, w, k)
    else
      && k !in before.allocs && q in before.notices && queue in before.evals
      && var announced := Announced(conf, Placed(conf, before, now, msg, w, k), queue, msg, w, k);
      after == if round.Delivered? then announced else announced.(evals := before.evals)
  }

  predicate HasRecorded(round: Round) {
    HasClaimed(round) && !round.Collided? && !round.Unrecorded?
  }

  /** What a round that claimed capacity did, row by row: the claim, the alloc, the notice and
      the message. */
  predicate RoundDid(conf: Conf, before: Db, after: Db, now: int, queue: string, k: AllocPK, round: Round)
    requires HasClaimed(round)
  {
    var msg, w := round.msg, round.w;
    var size := if msg.size < 1 then 1 else msg.size;
    var q := conf.deployment + "-" + w.pool + "-" + w.worker;
    && w in before.workers
    && after.workers == before.workers[w := before.workers[w].(capacity := before.workers[w].capacity - size)]
    && after.allocs == (
         if HasRecorded(round)
         then before.allocs[k := Alloc(now + conf.allocTTL, w.worker, Some(Eval(msg.dataset, size, msg.retry + 1)))]
         else before.allocs)
    && (HasRecorded(round) ==> k !in before.allocs)
    && (round.Delivered? || round.Undeleted? ==> q in before.notices)
    && after.notices == (
         if round.Delivered? || round.Undeleted?
         then before.notices[q := before.notices[q] + multiset{Notice(k.pool, k.alloc, w.worker)}] else before.notices)
    && (round.Delivered? ==> queue in before.evals)
    && after.evals == (
         if round.Delivered? then before.evals[queue := before.evals[queue] - multiset{msg}] else before.evals)
    && after.pools == before.pools && after.replicas == before.replicas && after.dead == before.dead
  }

  lemma StoredIsDone(conf: Conf, before: Db, after: Db, now: int, queue: string, k: AllocPK, round: Round)
    requires HasClaimed(round) && Stored(conf, before, after, now, queue, k, round)
    ensures RoundDid(conf, before, after, now, queue, k, round)
  {
    if round.Collided? || round.Unrecorded? {
    } else if round.Unannounced? || round.Unsent? {
    } else if round.Delivered? {
    } else {
    }
  }

  lemma ClaimStored(conf: Conf, before: Db, now: int, queue: string, k: AllocPK, round: Round)
    requires (round.Collided? && k in before.allocs) || round.Unrecorded?
    requires round.w in before.workers
    ensures var after := before.(workers := Credited(before.workers, round.w, -Normalised(round.msg).size));
      StoredFor(conf, before, after, now, queue, k, round)
  {
  }

  lemma PlaceStored(conf: Conf, before: Db, now: int, queue: string, k: AllocPK, round: Round)
    requires round.Unsent? || (round.Unannounced? && WorkerQueue(conf, round.w) !in before.notices)
    requires round.w in before.workers && k !in before.allocs
    ensures StoredFor(conf, before, Placed(conf, before, now, round.msg, round.w, k), now, queue, k, round)
  {
  }

  lemma AnnounceStored(conf: Conf, before: Db, now: int, queue: string, k: AllocPK, round: Round, after: Db)
    requires round.Delivered? || round.Undeleted?
    requires var q := WorkerQueue(conf, round.w); var n := Notice(k.pool, k.alloc, round.w.worker);
      && round.w in before.workers && k !in before.allocs && q in before.notices && queue in before.evals
      && after == Placed(conf, before, now, round.msg, round.w, k).(
           notices := before.notices[q := before.notices[q] + multiset{n}],
           evals := if round.Delivered? then before.evals[queue := before.evals[queue] - multiset{round.msg}]
               else before.evals)
    ensures StoredFor(conf, before, after, now, queue, k, round)
  {
  }

  /** Record the alloc, tell the worker, delete the message. */
  method Deliver(conf: Conf, s: Store, queue: string, msg: Eval, w: WorkerPK, k: AllocPK, row: Alloc, ghost before: Db)
    returns (round: Round)
    requires w in before.workers && w.pool == k.pool
    requires row == Alloc(s.now + conf.allocTTL, w.worker, Some(Attempted(Normalised(msg))))
    requires s.View() == before.(workers := Credited(before.workers, w, -Normalised(msg).size)) && queue in before.evals
    modifies s
    ensures s.now == old(s.now) && s.faults >= old(s.faults)
    ensures s.faults == old(s.faults) ==> !Faulty(round)
    ensures HasClaimed(round) && round.msg == msg && round.w == w
    ensures StoredFor(conf, before, s.View(), s.now, queue, k, round)
  {
    hide StoredFor, Credited;
    var r := s.PutNewAlloc(k, row);
    if !r.Ok? {
      round := if r.Down? then Unrecorded(msg, w) else Collided(msg, w);
      ClaimStored(conf, before, s.now, queue, k, round);
      return;
    }
    assert s.View() == Placed(conf, before, s.now, msg, w, k);
    hide Placed;
    ghost var placed := s.View();
    r := s.SendNotice(WorkerQueue(conf, w), Notice(k.pool, k.alloc, row.worker));
    if !r.Ok? {
      assert s.View() == placed;
      round := if r.Down? then Unsent(msg, w) else Unannounced(msg, w);
      PlaceStored(conf, before, s.now, queue, k, round);
      return;
    }
    ghost var told := s.View();
    assert told == placed.(notices := s.notices);
    r := s.DeleteEval(queue, msg);
    assert s.View() == told.(evals := s.evals);
    round := if r.Ok? then Delivered(msg, w) else Undeleted(msg, w);
    AnnounceStored(conf, before, s.now, queue, k, round, s.View());
  }

  /** The message a round is about was waiting, and its worker is the choice made from a
      page of the index. */
  ghost predicate Justified(before: Db, now: int, pool: string, queue: string, round: Round, page: seq<Candidate>,
      choice: Option<Candidate>) {
    match round
    case Nothing => queue in before.evals ==> before.evals[queue] == multiset{}
    case NoRoom(msg) =>
      && queue in before.evals && msg in before.evals[queue]
      && ChosenFor(before, now, pool, msg, page, None)
    case Failed => true
    case _ =>
      && queue in before.evals && round.msg in before.evals[queue]
      && choice.Some? && choice.value.w == round.w && ChosenFor(before, now, pool, round.msg, page, choice)
      && round.w in before.workers && round.w.pool == pool
      && before.workers[round.w].capacity >= Normalised(round.msg).size
  }

  /** Which worker a round took and when it found none, read off the workers table; the second
      for at most ten workers with the room. */
  predicate RoundChose(before: Db, now: int, pool: string, queue: string, round: Round) {
    && (!round.Nothing? && !round.Failed? ==> queue in before.evals && round.msg in before.evals[queue])
    && (HasClaimed(round) ==>
          var w, size := round.w, if round.msg.size < 1 then 1 else round.msg.size;
          && w in before.workers && w.pool == pool && before.workers[w].capacity >= size && before.workers[w].ttl >= now
          && (|set v | v in before.workers && v.pool == pool && before.workers[v].capacity >= size| <= 10 ==>
                forall v | v in before.workers && v.pool == pool && before.workers[v].ttl >= now ::
                  before.workers[v].capacity <= before.workers[w].capacity))
    && (round.NoRoom? ==>
          var size := if round.msg.size < 1 then 1 else round.msg.size;
          |set v | v in before.workers && v.pool == pool && before.workers[v].capacity >= size| <= 10 ==>
            forall v | v in before.workers && v.pool == pool && before.workers[v].capacity >= size ::
              before.workers[v].ttl < now)
  }

  lemma JustifiedChose(before: Db, now: int, pool: string, queue: string, round: Round, page: seq<Candidate>,
      choice: Option<Candidate>)
    requires Justified(before, now, pool, queue, round, page, choice)
    ensures RoundChose(before, now, pool, queue, round)
  {
    if !round.Nothing? && !round.Failed? {
      var size := if round.msg.size < 1 then 1 else round.msg.size;
      PageSpelledOut(before.workers, pool, size, page);
      if |set v | v in before.workers && v.pool == pool && before.workers[v].capacity >= size| <= 10 {
        ChoiceIsBest(before.workers, pool, size, now, page, if round.NoRoom? then None else choice);
      }
    }
  }

  /** The round once message `msg` was received. */
  method PlaceEval(conf: Conf, s: Store, id: string, queue: string, alloc: string, msg: Eval)
    returns (round: Round, ghost page: seq<Candidate>, ghost choice: Option<Candidate>)
    requires queue in s.evals && msg in s.evals[queue]
    modifies s
    ensures s.now == old(s.now) && s.faults >= old(s.faults)
    ensures s.faults == old(s.faults) ==> !Faulty(round)
    ensures !round.Nothing? && Justified(old(s.View()), s.now, id, queue, round, page, choice)
    ensures Stored(conf, old(s.View()), s.View(), s.now, queue, AllocPK(id, alloc), round)
  {
    page, choice := [], None;
    ghost var before := s.View();
    var eval := Normalised(msg);
    if eval.dataset != "" {
      var r, found := FindReplicas(s, id, eval.dataset);
      if r.Down? { return Failed, page, choice; }
    }
    hide IsCapacityPage, IsChoice, StoredFor, Credited;
    var r, row, rows, chosen := Schedule(conf, s, eval, id);
    page, choice := rows, chosen;
    if chosen.None? {
      round := if r.Down? then Failed else NoRoom(msg);
      return;
    }
    var w := chosen.value.w;
    if r.Down? {
      round := Unrecorded(msg, w);
      ClaimStored(conf, before, s.now, queue, AllocPK(id, alloc), round);
      return;
    }
    round := Deliver(conf, s, queue, msg, w, AllocPK(id, alloc), row, before);
  }

  method ReceiveRound(conf: Conf, s: Store, id: string, queue: string, alloc: string)
    returns (round: Round, ghost page: seq<Candidate>, ghost choice: Option<Candidate>)
    modifies s
    ensures s.now == old(s.now) && s.faults >= old(s.faults)
    ensures s.faults == old(s.faults) ==> !Faulty(round)
    ensures Justified(old(s.View()), s.now, id, queue, round, page, choice)
    ensures Stored(conf, old(s.View()), s.View(), s.now, queue, AllocPK(id, alloc), round)
    ensures if HasClaimed(round) then RoundDid(conf, old(s.View()), s.View(), s.now, queue, AllocPK(id, alloc), round)
      else s.View() == old(s.View())
    ensures RoundChose(old(s.View()), s.now, id, queue, round)
  {
    page, choice := [], None;
    ghost var before := s.View();
    var r, received := s.ReceiveEval(queue);
    if r.Down? { return Failed, page, choice; }
    if received.None? { return Nothing, page, choice; }
    hide RoundDid, StoredFor, Justified, RoundChose;
    round, page, choice := PlaceEval(conf, s, id, queue, alloc, received.value);
    JustifiedChose(before, s.now, id, queue, round, page, choice);
    if HasClaimed(round) {
      StoredIsDone(conf, before, s.View(), s.now, queue, AllocPK(id, alloc), round);
    }
  }

  /** The pools HandleSchedule serves: all that are not marked for deletion. */
  method PoolsToServe(s: Store) returns (ids: set<string>)
    ensures ids == set id | id in s.pools && s.pools[id].ttl <= 0
  {
    ids := {};
    var rest := s.pools.Keys;
    while rest != {}
      invariant rest <= s.pools.Keys
      invariant ids == set id | id in s.pools && id !in rest && Active(s.View(), id)
      decreases rest
    {
      var id :| id in rest;
      rest := rest - {id};
      if Disbanded(s.pools[id]) { continue; }
      ids := ids + {id};
    }
  }
}
