/** No accepted evaluation is lost, in every interleaving. The argument ranks the
    tokens of a lineage: a token is removed only after one of higher rank was created or
    the lineage has ended, so a token of the highest rank is always still there. */
module Lineage {
  import opened Types
  import opened Names
  import opened Machine
  import opened Integrity

  predicate Known(s: State, t: Token) {
    match t
    case Queued(m) => m in s.sent
    case Running(k) => k in s.recorded
  }

  function LineageOf(s: State, t: Token): nat
    requires Known(s, t)
  {
    match t
    case Queued(m) => s.sent[m].lineage
    case Running(k) => s.recorded[k].lineage
  }

  predicate Live(s: State, t: Token) {
    match t
    case Queued(m) => m in s.sent && s.sent[m].queue in s.evals && m in s.evals[s.sent[m].queue]
    case Running(k) => k in s.allocs
  }

  /** Dead-lettered, completed, or belonging to a pool that was disbanded. */
  predicate Ended(s: State, l: nat) {
    l in s.dead || l in s.completed || (l in s.home && s.home[l] !in s.evals)
  }

  predicate Outranked(s: State, t: Token) {
    Known(s, t) && LineageOf(s, t) in s.best && Rank(s, s.best[LineageOf(s, t)]) >= Rank(s, t)
  }

  predicate Safe(s: State, l: nat)
    requires l in s.best
  {
    && Known(s, s.best[l]) && LineageOf(s, s.best[l]) == l
    && (Ended(s, l) || Live(s, s.best[l]))
  }

  /** A sweep deletes an alloc only after its eval went on. */
  predicate SentOn(s: State, proc: Process) {
    proc.Deleting? && !proc.completes ==>
      && Outranked(s, Running(proc.item.pk))
      && var l := LineageOf(s, Running(proc.item.pk));
         Ended(s, l) || Rank(s, s.best[l]) > Rank(s, Running(proc.item.pk))
  }

  predicate Kept(s: State) {
    && (forall l | l in s.home :: s.home[l] in s.poolQueues && l in s.best)
    && (forall m | m in s.sent :: Outranked(s, Queued(m)))
    && (forall k | k in s.recorded :: Outranked(s, Running(k)))
    && (forall l | l in s.best :: Safe(s, l))
    && (forall p | p in s.procs :: SentOn(s, s.procs[p]))
  }

  /** `t` is a later state in which the tokens of `s` still rank the same, and whose best
      tokens are at least as good. */
  predicate Improves(s: State, t: State) {
    && Extends(s, t)
    && forall l | l in s.best :: l in t.best && Rank(t, t.best[l]) >= Rank(t, s.best[l])
  }

  lemma EndedStays(s: State, t: State, l: nat)
    requires Extends(s, t) && Ended(s, l) && (l in s.home ==> s.home[l] in s.poolQueues)
    ensures Ended(t, l)
  {
  }

  lemma OutrankedStays(s: State, t: State, tok: Token)
    requires Improves(s, t) && Outranked(s, tok) && Known(s, s.best[LineageOf(s, tok)])
    ensures Outranked(t, tok) && LineageOf(t, tok) == LineageOf(s, tok)
  {
  }

  lemma SentOnStays(s: State, t: State, proc: Process)
    requires Improves(s, t) && Kept(s) && SentOn(s, proc)
    ensures SentOn(t, proc)
  {
    if proc.Deleting? && !proc.completes {
      var tok := Running(proc.item.pk);
      var l := LineageOf(s, tok);
      assert Safe(s, l);
      OutrankedStays(s, t, tok);
      if Ended(s, l) { EndedStays(s, t, l); }
    }
  }

  /** A step that creates no token must keep every best token alive or end its lineage. */
  lemma KeptWithoutToken(s: State, t: State, p: nat, proc: Process)
    requires Kept(s) && Extends(s, t) && t.best == s.best
    requires t.sent == s.sent && t.recorded == s.recorded && t.home == s.home
    requires forall l | l in s.best && Live(s, s.best[l]) :: Live(t, s.best[l]) || Ended(t, l)
    requires t.procs == s.procs || (t.procs == s.procs[p := proc] && SentOn(t, proc))
    ensures Kept(t)
  {
    forall m | m in t.sent ensures Outranked(t, Queued(m)) {
      assert Outranked(s, Queued(m));
    }
    forall k | k in t.recorded ensures Outranked(t, Running(k)) {
      assert Outranked(s, Running(k));
    }
    forall l | l in t.best ensures Safe(t, l) {
      assert Safe(s, l);
      if Ended(s, l) { EndedStays(s, t, l); }
    }
    forall i | i in t.procs && (t.procs == s.procs || i != p) ensures SentOn(t, t.procs[i]) {
      SentOnStays(s, t, s.procs[i]);
    }
  }

  lemma BestImproves(s: State, t: State, tok: Token, l: nat)
    requires Kept(s) && Extends(s, t) && Known(t, tok) && l == LineageOf(t, tok)
    requires t.best == if l in s.best && Rank(t, s.best[l]) >= Rank(t, tok) then s.best else s.best[l := tok]
    ensures Improves(s, t) && Outranked(t, tok)
  {
  }

  lemma OldTokens(s: State, t: State)
    requires Kept(s) && Improves(s, t)
    ensures forall m | m in s.sent :: Outranked(t, Queued(m))
    ensures forall k | k in s.recorded :: Outranked(t, Running(k))
  {
    forall m | m in s.sent ensures Outranked(t, Queued(m)) {
      assert Outranked(s, Queued(m)) && Safe(s, s.sent[m].lineage);
      OutrankedStays(s, t, Queued(m));
    }
    forall k | k in s.recorded ensures Outranked(t, Running(k)) {
      assert Outranked(s, Running(k)) && Safe(s, s.recorded[k].lineage);
      OutrankedStays(s, t, Running(k));
    }
  }

  lemma SafeStays(s: State, t: State, l: nat)
    requires Kept(s) && Extends(s, t) && l in s.best && l in t.best && t.best[l] == s.best[l]
    requires Live(s, s.best[l]) ==> Live(t, s.best[l])
    ensures Safe(t, l)
  {
    assert Safe(s, l);
    if Ended(s, l) { EndedStays(s, t, l); }
  }

  /** The step creates the token `tok`, alive, and removes none. */
  predicate Gains(s: State, t: State, tok: Token) {
    && Known(t, tok) && Live(t, tok)
    && (var l := LineageOf(t, tok);
        && t.best == (if l in s.best && Rank(t, s.best[l]) >= Rank(t, tok) then s.best else s.best[l := tok])
        && forall h | h in t.home && h !in s.home :: h == l && t.home[h] in t.poolQueues)
    && (forall m | m in t.sent && m !in s.sent :: tok == Queued(m))
    && (forall k | k in t.recorded && k !in s.recorded :: tok == Running(k))
    && (forall k | k in s.allocs :: k in t.allocs)
    && (forall q | q in s.evals :: q in t.evals && s.evals[q] <= t.evals[q])
  }

  lemma BestStaySafe(s: State, t: State, tok: Token)
    requires Kept(s) && Extends(s, t) && Gains(s, t, tok)
    ensures forall l | l in t.best :: Safe(t, l)
  {
    forall l | l in t.best ensures Safe(t, l) {
      if l in s.best && t.best[l] == s.best[l] { SafeStays(s, t, l); }
    }
  }

  lemma KeptWithToken(s: State, t: State, tok: Token, p: nat, proc: Process)
    requires Kept(s) && Extends(s, t) && Gains(s, t, tok)
    requires t.procs == s.procs || (t.procs == s.procs[p := proc] && SentOn(t, proc))
    ensures Kept(t)
  {
    BestImproves(s, t, tok, LineageOf(t, tok));
    OldTokens(s, t);
    BestStaySafe(s, t, tok);
    ProcessesSentOn(s, t, p, proc);
  }

  lemma ProcessesSentOn(s: State, t: State, p: nat, proc: Process)
    requires Kept(s) && Improves(s, t)
    requires t.procs == s.procs || (t.procs == s.procs[p := proc] && SentOn(t, proc))
    ensures forall i | i in t.procs :: SentOn(t, t.procs[i])
  {
    forall i | i in t.procs && (t.procs == s.procs || i != p) ensures SentOn(t, t.procs[i]) {
      SentOnStays(s, t, s.procs[i]);
    }
  }

  /** The step creates no token and removes at most the token `gone`. */
  predicate Quiet(s: State, t: State, gone: Option<Token>) {
    && t.best == s.best && t.sent == s.sent && t.recorded == s.recorded && t.home == s.home
    && (forall k | k in s.allocs :: k in t.allocs || gone == Some(Running(k)))
    && (forall q | q in s.evals :: q in t.evals && forall m | m in s.evals[q] ::
        m in t.evals[q] || gone == Some(Queued(m)))
  }

  lemma QuietKeeps(s: State, t: State, gone: Option<Token>, p: nat, proc: Process)
    requires Kept(s) && Extends(s, t) && Quiet(s, t, gone)
    requires forall l | l in s.best && gone == Some(s.best[l]) :: Ended(t, l)
    requires t.procs == s.procs || (t.procs == s.procs[p := proc] && SentOn(t, proc))
    ensures Kept(t)
  {
    forall l | l in s.best && Live(s, s.best[l]) ensures Live(t, s.best[l]) || Ended(t, l) {
      assert Safe(s, l);
    }
    KeptWithoutToken(s, t, p, proc);
  }

  lemma ServedQuiet(rules: Rules, s: State, r: Request)
    requires Servable(rules, s, r) && !r.Submit? && !r.DropPoolQueue? && s.evals.Keys <= s.poolQueues
    ensures var t := Served(rules, s, r); Quiet(s, t, None) && t.procs == s.procs
  {
    match r
    case AddPoolQueue(_) =>
    case AddWorkerQueue(_) =>
    case DropWorkerQueue(_) =>
    case AddWorker(_, _, _) =>
    case DropWorker(_) =>
    case TouchWorker(_, _) =>
    case TouchAlloc(_, _) =>
  }

  lemma ScheduledQuiet(rules: Rules, s: State, p: nat, c: SchedulerCall)
    requires Schedulable(rules, s, Proc(s, p), c) && !c.Put?
    ensures var t := Scheduled(rules, s, p, c);
      && Quiet(s, t, if c.Ack? then Some(Queued(Proc(s, p).msg)) else None)
      && t.procs == s.procs[p := Proc(t, p)] && !Proc(t, p).Deleting?
  {
    match c
    case Receive(_, _) =>
    case Claim(_) =>
    case Tell =>
    case Ack =>
  }

  lemma ReleasedQuiet(rules: Rules, s: State, p: nat, c: ReleaserCall)
    requires Releasable(rules, s, Proc(s, p), c) && !c.Resend?
    ensures var t := Released(rules, s, p, c);
      && Quiet(s, t, if c.Delete? then Some(Running(Proc(s, p).item.pk)) else None)
      && t.procs == s.procs[p := Proc(t, p)] && t.evals == s.evals
  {
    match c
    case Scan(_, _) =>
    case Skip =>
    case Bury =>
    case Drop =>
    case Look(_) =>
    case Delete =>
    case DeleteNothing =>
    case Credit =>
  }

  lemma SubmitGains(rules: Rules, s: State, r: Request)
    requires Servable(rules, s, r) && r.Submit? && QueueOk(s, PoolQueue(rules.conf, r.pool))
    ensures var t := Served(rules, s, r); Gains(s, t, Queued(r.msg)) && t.procs == s.procs
  {
  }

  lemma DropEnds(rules: Rules, s: State, r: Request)
    requires r.DropPoolQueue? && (forall m | m in s.sent :: MessageOk(s, m)) && (forall l | l in s.best :: Safe(s, l))
    ensures var t := Served(rules, s, r); forall l | l in s.best && Live(s, s.best[l]) ::
      Live(t, s.best[l]) || Ended(t, l)
  {
    forall l | l in s.best && s.best[l].Queued? ensures MessageOk(s, s.best[l].msg) {
      assert Safe(s, l);
    }
  }

  lemma KeptServed(rules: Rules, s: State, r: Request)
    requires Whole(rules, s) && Kept(s) && Servable(rules, s, r)
    ensures Kept(Served(rules, s, r))
  {
    var t := Served(rules, s, r);
    WholeServed(rules, s, r);
    if r.Submit? {
      SubmitGains(rules, s, r);
      KeptWithToken(s, t, Queued(r.msg), 0, Idle);
    } else if r.DropPoolQueue? {
      DropEnds(rules, s, r);
      KeptWithoutToken(s, t, 0, Idle);
    } else {
      assert forall q | q in s.evals :: QueueOk(s, q);
      ServedQuiet(rules, s, r);
      QuietKeeps(s, t, None, 0, Idle);
    }
  }

  /** Once the alloc is recorded, the message it came from is no longer the best token. */
  lemma PutOutranksMessage(rules: Rules, s: State, pool: string, msg: nat, pk: AllocPK)
    requires Kept(s) && Attempting(rules, s, pool, msg, pk)
    ensures forall l | l in s.best :: s.best[l] != Queued(msg)
  {
    assert Outranked(s, Running(pk));
    forall l | l in s.best ensures s.best[l] != Queued(msg) {
      assert Safe(s, l);
    }
  }

  lemma PutGains(rules: Rules, s: State, p: nat, c: SchedulerCall)
    requires Schedulable(rules, s, Proc(s, p), c) && c.Put?
    ensures var t := Scheduled(rules, s, p, c);
      && Gains(s, t, Running(AllocPK(Proc(s, p).pool, c.alloc)))
      && t.procs == s.procs[p := Proc(t, p)] && !Proc(t, p).Deleting?
  {
  }

  lemma KeptScheduled(rules: Rules, s: State, p: nat, c: SchedulerCall)
    requires Whole(rules, s) && Kept(s) && Schedulable(rules, s, Proc(s, p), c)
    ensures Kept(Scheduled(rules, s, p, c))
  {
    var t, proc := Scheduled(rules, s, p, c), Proc(s, p);
    assert ProcessOk(rules, s, proc);
    WholeScheduled(rules, s, p, c);
    if c.Put? {
      PutGains(rules, s, p, c);
      KeptWithToken(s, t, Running(AllocPK(proc.pool, c.alloc)), p, Proc(t, p));
    } else {
      ScheduledQuiet(rules, s, p, c);
      if c.Ack? { PutOutranksMessage(rules, s, proc.pool, proc.msg, proc.pk); }
      QuietKeeps(s, t, if c.Ack? then Some(Queued(proc.msg)) else None, p, Proc(t, p));
    }
  }

  /** The row may go: its eval went on, or the alloc is complete. */
  lemma DeleteEnds(rules: Rules, s: State, p: nat)
    requires Kept(s) && Releasable(rules, s, Proc(s, p), Delete) && SentOn(s, Proc(s, p))
    ensures var t := Released(rules, s, p, Delete);
      forall l | l in s.best && s.best[l] == Running(Proc(s, p).item.pk) :: Ended(t, l)
  {
    forall l | l in s.best ensures Safe(s, l) {}
  }

  lemma KeptDeleted(rules: Rules, s: State, p: nat)
    requires Whole(rules, s) && Kept(s) && Releasable(rules, s, Proc(s, p), Delete)
    ensures Kept(Released(rules, s, p, Delete))
  {
    var t, proc := Released(rules, s, p, Delete), Proc(s, p);
    WholeReleased(rules, s, p, Delete);
    ReleasedQuiet(rules, s, p, Delete);
    assert SentOn(s, proc);
    DeleteEnds(rules, s, p);
    QuietKeeps(s, t, Some(Running(proc.item.pk)), p, Proc(t, p));
  }

  lemma ExpellingFacts(rules: Rules, s: State, proc: Process)
    requires Whole(rules, s) && Kept(s) && ProcessOk(rules, s, proc) && Expelling(s, proc)
    ensures var item := proc.items[0];
      item.pk.pool == proc.pool && Seen(s, item) && Outranked(s, Running(item.pk)) && RecordOk(rules, s, item.pk)
  {
  }

  lemma KeptExpelled(rules: Rules, s: State, p: nat, c: ReleaserCall)
    requires Whole(rules, s) && Kept(s) && Releasable(rules, s, Proc(s, p), c) && (c.Bury? || c.Drop?)
    ensures Kept(Released(rules, s, p, c))
  {
    var t := Released(rules, s, p, c);
    ExpellingFacts(rules, s, Proc(s, p));
    WholeReleased(rules, s, p, c);
    ReleasedQuiet(rules, s, p, c);
    ExpelledSentOn(rules, s, p, c);
    QuietKeeps(s, t, None, p, Proc(t, p));
  }

  lemma KeptReleased(rules: Rules, s: State, p: nat, c: ReleaserCall)
    requires Whole(rules, s) && Kept(s) && Releasable(rules, s, Proc(s, p), c)
    requires c.Scan? || c.Skip? || c.Look? || c.DeleteNothing? || c.Credit?
    ensures Kept(Released(rules, s, p, c))
  {
    var t := Released(rules, s, p, c);
    WholeReleased(rules, s, p, c);
    ReleasedQuiet(rules, s, p, c);
    QuietKeeps(s, t, None, p, Proc(t, p));
  }

  lemma ExpelledSentOn(rules: Rules, s: State, p: nat, c: ReleaserCall)
    requires Releasable(rules, s, Proc(s, p), c) && (c.Bury? || c.Drop?)
    requires Expelling(s, Proc(s, p)) && Proc(s, p).items[0].pk.pool == Proc(s, p).pool
    requires var k := Proc(s, p).items[0].pk; Outranked(s, Running(k)) && RecordOk(rules, s, k)
    ensures var t := Released(rules, s, p, c); SentOn(t, Proc(t, p))
  {
  }

  lemma ResendGains(rules: Rules, s: State, p: nat, c: ReleaserCall)
    requires Releasable(rules, s, Proc(s, p), c) && c.Resend?
    requires Expelling(s, Proc(s, p)) && Seen(s, Proc(s, p).items[0])
    requires Outranked(s, Running(Proc(s, p).items[0].pk))
    ensures var t := Released(rules, s, p, c); var k := Proc(s, p).items[0].pk;
      && Gains(s, t, Queued(c.msg))
      && t.procs == s.procs[p := Proc(t, p)]
      && Proc(t, p).Deleting? && Proc(t, p).item.pk == k
      && LineageOf(t, Queued(c.msg)) == LineageOf(s, Running(k)) && k in t.recorded && t.recorded[k] == s.recorded[k]
      && Rank(t, Queued(c.msg)) > Rank(t, Running(k))
  {
  }

  lemma ResentSentOn(s: State, t: State, tok: Token, proc: Process)
    requires Kept(s) && Extends(s, t) && Gains(s, t, tok)
    requires proc.Deleting? && proc.item.pk in s.recorded
    requires LineageOf(t, tok) == LineageOf(s, Running(proc.item.pk)) && Rank(t, tok) > Rank(t, Running(proc.item.pk))
    ensures SentOn(t, proc)
  {
    var k := proc.item.pk;
    BestImproves(s, t, tok, LineageOf(t, tok));
    assert Outranked(s, Running(k)) && Safe(s, s.recorded[k].lineage);
    OutrankedStays(s, t, Running(k));
  }

  lemma KeptResent(rules: Rules, s: State, p: nat, c: ReleaserCall)
    requires Whole(rules, s) && Kept(s) && Releasable(rules, s, Proc(s, p), c) && c.Resend?
    ensures Kept(Released(rules, s, p, c))
  {
    var t := Released(rules, s, p, c);
    ExpellingFacts(rules, s, Proc(s, p));
    WholeReleased(rules, s, p, c);
    ResendGains(rules, s, p, c);
    ResentSentOn(s, t, Queued(c.msg), Proc(t, p));
    KeptWithToken(s, t, Queued(c.msg), p, Proc(t, p));
  }

  lemma KeptGivenUp(rules: Rules, s: State, p: nat, next: Process)
    requires Whole(rules, s) && Kept(s) && next in {Idle, AfterFailure(Proc(s, p))}
    ensures Kept(GiveUp(s, p, next))
  {
    WholeGivenUp(rules, s, p, next);
    QuietKeeps(s, GiveUp(s, p, next), None, p, next);
  }

  lemma KeptNext(rules: Rules, s: State, step: Step)
    requires Whole(rules, s) && Kept(s)
    ensures Kept(Next(rules, s, step))
  {
    match step
    case Serve(r) => if Servable(rules, s, r) { KeptServed(rules, s, r); }
    case Schedule(p, c) => if Schedulable(rules, s, Proc(s, p), c) { KeptScheduled(rules, s, p, c); }
    case Release(p, c) =>
      if Releasable(rules, s, Proc(s, p), c) {
        match c
        case Resend(_) => KeptResent(rules, s, p, c);
        case Bury => KeptExpelled(rules, s, p, c);
        case Drop => KeptExpelled(rules, s, p, c);
        case Delete => KeptDeleted(rules, s, p);
        case _ => KeptReleased(rules, s, p, c);
      }
    case Fail(p) => KeptGivenUp(rules, s, p, AfterFailure(Proc(s, p)));
    case Crash(p) => KeptGivenUp(rules, s, p, Idle);
  }
}
