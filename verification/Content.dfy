/** An evaluation stays what it was: whatever copies of it there are, they ask for the
    dataset and the size it was submitted with. */
module Content {
  import opened Types
  import opened Machine
  import opened Integrity

  /** `e` is a copy of the evaluation submitted as `asked`. A size below 1 counts as 1 from the
      first attempt on; apart from that only the number of attempts changes. */
  predicate CopyOf(asked: Eval, e: Eval) {
    && asked.retry == 0 && e.retry >= 0 && e.dataset == asked.dataset
    && e.size == if e.retry >= 1 && asked.size < 1 then 1 else asked.size
  }

  predicate CopyFor(s: State, l: nat, e: Eval) {
    l in s.sent && CopyOf(s.sent[l].eval, e)
  }

  predicate MessageTrue(s: State, m: nat) {
    m in s.sent ==> CopyFor(s, s.sent[m].lineage, s.sent[m].eval)
  }

  predicate RecordTrue(s: State, k: AllocPK) {
    k in s.recorded ==> CopyFor(s, s.recorded[k].lineage, s.recorded[k].eval) && s.recorded[k].eval.retry >= 1
  }

  predicate DeadTrue(s: State, l: nat) {
    l in s.dead ==> forall e | e in s.dead[l] :: CopyFor(s, l, e) && e.retry >= 1
  }

  /** Messages, records and dead letters are copies of what their lineage was submitted as. */
  ghost predicate Faithful(s: State) {
    && (forall m {:trigger MessageTrue(s, m)} :: MessageTrue(s, m))
    && (forall k {:trigger RecordTrue(s, k)} :: RecordTrue(s, k))
    && (forall l {:trigger DeadTrue(s, l)} :: DeadTrue(s, l))
  }

  lemma CopyStays(s: State, t: State, l: nat, e: Eval)
    requires CopyFor(s, l, e) && Extends(s, t)
    ensures CopyFor(t, l, e)
  {
  }

  /** A placed copy is a copy. */
  lemma PlacedCopy(asked: Eval, e: Eval)
    requires CopyOf(asked, e)
    ensures CopyOf(asked, Attempted(Normalised(e)))
  {
  }

  /** At most this message, this record and this lineage's dead letters are new, and they are
      copies. */
  lemma FaithfulMore(s: State, t: State, m: nat, k: AllocPK, l: nat)
    requires Faithful(s) && Extends(s, t)
    requires forall i | i in t.sent && i != m :: i in s.sent && t.sent[i] == s.sent[i]
    requires forall i | i in t.recorded && i != k :: i in s.recorded && t.recorded[i] == s.recorded[i]
    requires forall i | i in t.dead && i != l :: i in s.dead && t.dead[i] == s.dead[i]
    requires MessageTrue(t, m) && RecordTrue(t, k) && DeadTrue(t, l)
    ensures Faithful(t)
  {
    forall i ensures MessageTrue(t, i) {
      if i in t.sent && i != m {
        assert MessageTrue(s, i);
        CopyStays(s, t, s.sent[i].lineage, s.sent[i].eval);
      }
    }
    forall i ensures RecordTrue(t, i) {
      if i in t.recorded && i != k {
        assert RecordTrue(s, i);
        CopyStays(s, t, s.recorded[i].lineage, s.recorded[i].eval);
      }
    }
    forall i ensures DeadTrue(t, i) {
      if i in t.dead && i != l {
        assert DeadTrue(s, i);
        forall e | e in t.dead[i] ensures CopyFor(t, i, e) {
          CopyStays(s, t, i, e);
        }
      }
    }
  }

  lemma OldTrue(s: State, t: State, m: nat, k: AllocPK, l: nat)
    requires Faithful(s) && Extends(s, t)
    ensures m in s.sent ==> MessageTrue(t, m)
    ensures k in s.recorded ==> RecordTrue(t, k)
    ensures l in s.dead && l in t.dead && t.dead[l] == s.dead[l] ==> DeadTrue(t, l)
  {
    assert MessageTrue(s, m) && RecordTrue(s, k) && DeadTrue(s, l);
    if m in s.sent { CopyStays(s, t, s.sent[m].lineage, s.sent[m].eval); }
    if k in s.recorded { CopyStays(s, t, s.recorded[k].lineage, s.recorded[k].eval); }
    if l in s.dead && l in t.dead && t.dead[l] == s.dead[l] {
      forall e | e in t.dead[l] ensures CopyFor(t, l, e) {
        CopyStays(s, t, l, e);
      }
    }
  }

  /** A step that sends, records and buries nothing. */
  lemma FaithfulSame(s: State, t: State)
    requires Faithful(s) && Extends(s, t) && t.sent == s.sent && t.recorded == s.recorded && t.dead == s.dead
    ensures Faithful(t)
  {
    var m, k, l := 0, AllocPK("", ""), 0;
    OldTrue(s, t, m, k, l);
    FaithfulMore(s, t, m, k, l);
  }

  // The four steps that make a copy.

  lemma SubmitWrites(rules: Rules, s: State, r: Request)
    requires Servable(rules, s, r) && r.Submit?
    ensures var t := Served(rules, s, r);
      && t.sent == s.sent[r.msg := t.sent[r.msg]] && t.recorded == s.recorded && t.dead == s.dead
      && t.sent[r.msg].eval == Eval(r.dataset, r.size, 0) && t.sent[r.msg].lineage == r.msg
  {
  }

  lemma SubmitFaithful(rules: Rules, s: State, r: Request)
    requires Faithful(s) && Servable(rules, s, r) && r.Submit? && Extends(s, Served(rules, s, r))
    ensures Faithful(Served(rules, s, r))
  {
    var t := Served(rules, s, r);
    SubmitWrites(rules, s, r);
    hide Served;
    OldTrue(s, t, r.msg, AllocPK("", ""), 0);
    FaithfulMore(s, t, r.msg, AllocPK("", ""), 0);
  }

  lemma PutWrites(rules: Rules, s: State, p: nat, c: SchedulerCall)
    requires Schedulable(rules, s, Proc(s, p), c) && c.Put?
    ensures var t, proc := Scheduled(rules, s, p, c), Proc(s, p); var k := AllocPK(proc.pool, c.alloc);
      && t.sent == s.sent && t.dead == s.dead && t.recorded == s.recorded[k := t.recorded[k]]
      && t.recorded[k].eval == proc.eval && t.recorded[k].lineage == s.sent[proc.msg].lineage
  {
  }

  lemma PutFaithful(rules: Rules, s: State, p: nat, c: SchedulerCall)
    requires Faithful(s) && Schedulable(rules, s, Proc(s, p), c) && c.Put? && ProcessOk(rules, s, Proc(s, p))
    requires Extends(s, Scheduled(rules, s, p, c))
    ensures Faithful(Scheduled(rules, s, p, c))
  {
    var t, proc := Scheduled(rules, s, p, c), Proc(s, p);
    var k := AllocPK(proc.pool, c.alloc);
    PutWrites(rules, s, p, c);
    hide Scheduled, Extends;
    assert MessageTrue(s, proc.msg);
    PlacedCopy(s.sent[s.sent[proc.msg].lineage].eval, s.sent[proc.msg].eval);
    OldTrue(s, t, 0, k, 0);
    FaithfulMore(s, t, 0, k, 0);
  }

  lemma ResendWrites(rules: Rules, s: State, p: nat, c: ReleaserCall)
    requires Releasable(rules, s, Proc(s, p), c) && c.Resend?
    ensures var t, item := Released(rules, s, p, c), Proc(s, p).items[0];
      && t.sent == s.sent[c.msg := t.sent[c.msg]] && t.recorded == s.recorded && t.dead == s.dead
      && t.sent[c.msg].eval == item.row.eval.value && t.sent[c.msg].lineage == s.recorded[item.pk].lineage
  {
  }

  lemma BuryWrites(rules: Rules, s: State, p: nat)
    requires Releasable(rules, s, Proc(s, p), Bury)
    ensures var t, item := Released(rules, s, p, Bury), Proc(s, p).items[0]; var l := s.recorded[item.pk].lineage;
      && t.sent == s.sent && t.recorded == s.recorded && t.dead == s.dead[l := t.dead[l]]
      && t.dead[l] == (if l in s.dead then s.dead[l] else multiset{}) + multiset{item.row.eval.value}
  {
  }

  lemma SendOnFaithful(rules: Rules, s: State, p: nat, c: ReleaserCall)
    requires Faithful(s) && Releasable(rules, s, Proc(s, p), c) && (c.Resend? || c.Bury?)
    requires ProcessOk(rules, s, Proc(s, p)) && Extends(s, Released(rules, s, p, c))
    ensures Faithful(Released(rules, s, p, c))
  {
    var t, item := Released(rules, s, p, c), Proc(s, p).items[0];
    assert Seen(s, item) && RecordTrue(s, item.pk);
    var l := s.recorded[item.pk].lineage;
    if c.Resend? {
      ResendWrites(rules, s, p, c);
      hide Released;
      OldTrue(s, t, c.msg, item.pk, 0);
      FaithfulMore(s, t, c.msg, item.pk, 0);
    } else {
      BuryWrites(rules, s, p);
      hide Released;
      OldTrue(s, t, 0, item.pk, l);
      BuriedTrue(s, t, l, item.row.eval.value);
      FaithfulMore(s, t, 0, item.pk, l);
    }
  }

  lemma BuriedTrue(s: State, t: State, l: nat, e: Eval)
    requires Faithful(s) && t.sent == s.sent && CopyFor(s, l, e) && e.retry >= 1 && l in t.dead
    requires t.dead[l] == (if l in s.dead then s.dead[l] else multiset{}) + multiset{e}
    ensures DeadTrue(t, l)
  {
    assert DeadTrue(s, l);
  }

  // All other steps.

  lemma ServedQuietly(rules: Rules, s: State, r: Request)
    requires Servable(rules, s, r) && !r.Submit?
    ensures var t := Served(rules, s, r); t.sent == s.sent && t.recorded == s.recorded && t.dead == s.dead
  {
  }

  lemma ScheduledQuietly(rules: Rules, s: State, p: nat, c: SchedulerCall)
    requires Schedulable(rules, s, Proc(s, p), c) && !c.Put?
    ensures var t := Scheduled(rules, s, p, c); t.sent == s.sent && t.recorded == s.recorded && t.dead == s.dead
  {
  }

  lemma ReleasedQuietly(rules: Rules, s: State, p: nat, c: ReleaserCall)
    requires Releasable(rules, s, Proc(s, p), c) && !c.Resend? && !c.Bury?
    ensures var t := Released(rules, s, p, c); t.sent == s.sent && t.recorded == s.recorded && t.dead == s.dead
  {
  }

  lemma IdleIsOk(rules: Rules, s: State, p: nat)
    requires Whole(rules, s)
    ensures ProcessOk(rules, s, Proc(s, p))
  {
  }

  lemma FaithfulNext(rules: Rules, s: State, step: Step)
    requires Whole(rules, s) && Faithful(s)
    ensures Faithful(Next(rules, s, step))
  {
    WholeNext(rules, s, step);
    if !step.Serve? { IdleIsOk(rules, s, step.p); }
    hide Whole, Faithful, Extends, ProcessOk, Served, Scheduled, Released, Servable, Schedulable, Releasable;
    match step
    case Serve(r) =>
      if Servable(rules, s, r) {
        if r.Submit? {
          SubmitFaithful(rules, s, r);
        } else {
          ServedQuietly(rules, s, r);
          FaithfulSame(s, Served(rules, s, r));
        }
      }
    case Schedule(p, c) =>
      if Schedulable(rules, s, Proc(s, p), c) {
        if c.Put? {
          PutFaithful(rules, s, p, c);
        } else {
          ScheduledQuietly(rules, s, p, c);
          FaithfulSame(s, Scheduled(rules, s, p, c));
        }
      }
    case Release(p, c) =>
      if Releasable(rules, s, Proc(s, p), c) {
        if c.Resend? || c.Bury? {
          SendOnFaithful(rules, s, p, c);
        } else {
          ReleasedQuietly(rules, s, p, c);
          FaithfulSame(s, Released(rules, s, p, c));
        }
      }
    case Fail(p) => FaithfulSame(s, Next(rules, s, step));
    case Crash(p) => FaithfulSame(s, Next(rules, s, step));
  }
}
