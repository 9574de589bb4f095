/** The protocol as a state machine whose steps are single database or queue calls.

    Any number of schedulers, sweepers and completion requests run side by side. A
    process may act on query results of any age, its call may fail, and it may
    stop after any call. API requests that write one row are steps of their own,
    allowed at any moment; a request that is refused writes nothing, which is the
    same as not taking the step. */
module Machine {
  import opened Types
  import opened Names
  import opened Sums

  /** A message that was sent to a pool queue once. `lineage` is the message of the
      evaluation request it descends from. */
  datatype Message = Message(queue: string, eval: Eval, lineage: nat)

  /** What is remembered of an alloc row after it is gone. */
  datatype Record = Record(host: WorkerPK, eval: Eval, lineage: nat)

  datatype Item = Item(pk: AllocPK, row: Alloc)

  /** An eval lives on as a queued message or as a running alloc. */
  datatype Token = Queued(msg: nat) | Running(pk: AllocPK)

  datatype Process =
    | Idle
    // ReceiveEvals
    | Received(pool: string, msg: nat, eval: Eval)
    | Claimed(pool: string, msg: nat, eval: Eval, host: WorkerPK)
    | Recorded(pool: string, msg: nat, pk: AllocPK)
    | Told(pool: string, msg: nat, pk: AllocPK)
    // releaseAllocs with the items still to do
    | Sweeping(pool: string, items: seq<Item>)
    // releaseAlloc, called for one item of a sweep or by CompleteAlloc
    | Deleting(pool: string, item: Item, rest: seq<Item>, completes: bool)
    // `removed`: the delete found the row, which the process itself cannot tell
    | Crediting(pool: string, item: Item, rest: seq<Item>, removed: bool)

  /** With `guarded` a release credits the worker only if its delete removed the row;
      the program itself is not guarded. */
  datatype Rules = Rules(conf: Conf, guarded: bool)

  datatype State = State(
    workers: map<WorkerPK, Worker>,
    allocs: map<AllocPK, Alloc>,
    evals: map<string, set<nat>>,           // messages waiting in each existing pool queue
    notices: map<string, multiset<Notice>>, // messages in each existing worker queue
    dead: map<nat, multiset<Eval>>,         // the dead-letter queue, by lineage
    procs: map<nat, Process>,
    // History: nothing below influences a step, except that ids are not used twice.
    registered: map<WorkerPK, int>,         // capacity a worker was registered with
    recorded: map<AllocPK, Record>,         // alloc rows that were ever put
    home: map<nat, string>,                 // accepted evaluations and their pool's queue
    sent: map<nat, Message>,                // messages that were ever sent
    poolQueues: set<string>,                // pool queues that ever existed
    completed: set<nat>,                    // lineages of which a running alloc was completed
    best: map<nat, Token>,                  // a token of the highest rank a lineage ever had
    leaked: map<WorkerPK, int>,             // capacity of claims and credits given up on
    excess: map<WorkerPK, int>)             // credit applied for deletes that removed nothing

  const INITIAL := State(map[], map[], map[], map[], map[], map[],
                         map[], map[], map[], map[], {}, {}, map[], map[], map[])

  /** API requests and the sweeper's removal of workers: one row or queue each. */
  datatype Request =
    | AddPoolQueue(pool: string)
    | DropPoolQueue(pool: string)
    | AddWorkerQueue(w: WorkerPK)
    | DropWorkerQueue(w: WorkerPK)
    | AddWorker(w: WorkerPK, capacity: int, ttl: int)
    | DropWorker(w: WorkerPK)
    | TouchWorker(w: WorkerPK, ttl: int)
    | TouchAlloc(pk: AllocPK, ttl: int)
    | Submit(pool: string, dataset: string, size: int, msg: nat)

  /** One round of ReceiveEvals: receive, claim, record, tell the worker, acknowledge. */
  datatype SchedulerCall =
    | Receive(pool: string, msg: nat)
    | Claim(w: WorkerPK)
    | Put(alloc: string, ttl: int)
    | Tell
    | Ack

  /** A sweep sends each expired eval on and then releases its alloc; a completion
      looks one alloc up and releases it. */
  datatype ReleaserCall =
    | Scan(pool: string, items: seq<Item>)
    | Skip
    | Resend(msg: nat)
    | Bury
    | Drop
    | Look(item: Item)
    | Delete
    | DeleteNothing
    | Credit

  datatype Step =
    | Serve(request: Request)
    | Schedule(p: nat, sched: SchedulerCall)
    | Release(p: nat, rel: ReleaserCall)
    | Fail(p: nat)   // a call fails and the loop of the process goes on
    | Crash(p: nat)  // the process stops

  function Proc(s: State, p: nat): Process {
    if p in s.procs then s.procs[p] else Idle
  }

  predicate AtRest(proc: Process) {
    proc.Idle? || (proc.Sweeping? && proc.items == [])
  }

  /** Higher for later stages of an eval: queued for the r-th time is 2r, running on
      the r-th attempt is 2r-1. */
  function Rank(s: State, t: Token): int {
    match t
    case Queued(m) => if m in s.sent then 2 * s.sent[m].eval.retry else -2
    case Running(k) => if k in s.recorded then 2 * s.recorded[k].eval.retry - 1 else -2
  }

  function Better(s: State, lineage: nat, t: Token): map<nat, Token> {
    if lineage in s.best && Rank(s, s.best[lineage]) >= Rank(s, t) then s.best else s.best[lineage := t]
  }

  /** A query result may be old: its rows may be deleted or renewed since. */
  predicate Seen(s: State, item: Item) {
    && item.pk in s.recorded
    && item.row.worker == s.recorded[item.pk].host.worker
    && item.row.eval == Some(s.recorded[item.pk].eval)
  }

  predicate AllSeen(s: State, pool: string, items: seq<Item>) {
    forall i | 0 <= i < |items| :: items[i].pk.pool == pool && Seen(s, items[i])
  }

  predicate Servable(rules: Rules, s: State, r: Request) {
    match r
    case AddPoolQueue(pool) => PoolQueue(rules.conf, pool) !in s.poolQueues
    case DropPoolQueue(pool) => true
    case AddWorkerQueue(w) =>
      IsId(w.pool) && IsId(w.worker) && w !in s.registered && WorkerQueue(rules.conf, w) !in s.notices
    case DropWorkerQueue(w) => true
    case AddWorker(w, capacity, ttl) => IsId(w.pool) && IsId(w.worker) && w !in s.registered && capacity >= 0
    case DropWorker(w) => w in s.workers
    case TouchWorker(w, ttl) => w in s.workers
    case TouchAlloc(pk, ttl) => pk in s.allocs
    case Submit(pool, dataset, size, msg) => PoolQueue(rules.conf, pool) in s.evals && msg !in s.sent && msg !in s.home
  }

  predicate Schedulable(rules: Rules, s: State, proc: Process, c: SchedulerCall) {
    match c
    case Receive(pool, msg) => AtRest(proc) && msg in s.sent && s.sent[msg].queue == PoolQueue(rules.conf, pool)
    case Claim(w) => proc.Received? && w.pool == proc.pool && w in s.workers && s.workers[w].capacity >= proc.eval.size
    case Put(alloc, ttl) => proc.Claimed? && proc.msg in s.sent && AllocPK(proc.pool, alloc) !in s.recorded
    case Tell =>
      proc.Recorded? && proc.pk in s.recorded && WorkerQueue(rules.conf, s.recorded[proc.pk].host) in s.notices
    case Ack => proc.Told? && PoolQueue(rules.conf, proc.pool) in s.evals
  }

  predicate Releasable(rules: Rules, s: State, proc: Process, c: ReleaserCall) {
    match c
    case Scan(pool, items) => AtRest(proc) && AllSeen(s, pool, items)
    case Skip => proc.Sweeping? && proc.items != [] && !Sound(proc.items[0].row)
    case Resend(msg) => Expelling(s, proc) && !Spent(rules.conf, proc.items[0].row.eval.value)
      && PoolQueue(rules.conf, proc.pool) in s.evals && msg !in s.sent
    case Bury => Expelling(s, proc) && Spent(rules.conf, proc.items[0].row.eval.value)
    case Drop => Expelling(s, proc) && !Spent(rules.conf, proc.items[0].row.eval.value)
      && PoolQueue(rules.conf, proc.pool) !in s.evals
    case Look(item) => AtRest(proc) && Seen(s, item)
    case Delete => proc.Deleting? && proc.item.pk in s.allocs && proc.item.pk in s.recorded
    case DeleteNothing => proc.Deleting? && proc.item.pk !in s.allocs
    case Credit => proc.Crediting? && Host(proc.item.pk, proc.item.row) in s.workers
  }

  /** The sweep is at an alloc that passes its sanity checks. */
  predicate Expelling(s: State, proc: Process) {
    proc.Sweeping? && proc.items != [] && Sound(proc.items[0].row) && proc.items[0].pk in s.recorded
  }

  /** Capacity of worker `w` that is in the hands of a process: claimed and not yet
      recorded in an alloc, or taken from a deleted alloc and not yet credited. */
  function Held(proc: Process, w: WorkerPK): int {
    match proc
    case Claimed(_, _, eval, host) => if host == w then eval.size else 0
    case Crediting(_, item, _, removed) => if removed && Host(item.pk, item.row) == w then SizeOf(item.row) else 0
    case _ => 0
  }

  function Plus(m: map<WorkerPK, int>, w: WorkerPK, n: int): map<WorkerPK, int> {
    m[w := At(m, w) + n]
  }

  /** Giving up at this point leaks whatever the process held. */
  function Leaks(leaked: map<WorkerPK, int>, proc: Process): map<WorkerPK, int> {
    match proc
    case Claimed(_, _, eval, host) => Plus(leaked, host, eval.size)
    case Crediting(_, item, _, removed) =>
      if removed then Plus(leaked, Host(item.pk, item.row), SizeOf(item.row)) else leaked
    case _ => leaked
  }

  function GiveUp(s: State, p: nat, next: Process): State {
    s.(procs := s.procs[p := next], leaked := Leaks(s.leaked, Proc(s, p)))
  }

  /** Where the loop of a process continues when its current call fails. */
  function AfterFailure(proc: Process): Process {
    match proc
    case Deleting(pool, _, rest, _) => Sweeping(pool, rest)
    case Crediting(pool, _, rest, _) => Sweeping(pool, rest)
    case _ => Idle
  }

  function Send(s: State, msg: nat, m: Message): State
    requires m.queue in s.evals
  {
    var s1 := s.(sent := s.sent[msg := m], evals := s.evals[m.queue := s.evals[m.queue] + {msg}]);
    s1.(best := Better(s1, m.lineage, Queued(msg)))
  }

  function Served(rules: Rules, s: State, r: Request): State
    requires Servable(rules, s, r)
  {
    match r
    case AddPoolQueue(pool) =>
      var queue := PoolQueue(rules.conf, pool);
      s.(evals := s.evals[queue := {}], poolQueues := s.poolQueues + {queue})
    case DropPoolQueue(pool) => s.(evals := s.evals - {PoolQueue(rules.conf, pool)})
    case AddWorkerQueue(w) => s.(notices := s.notices[WorkerQueue(rules.conf, w) := multiset{}])
    case DropWorkerQueue(w) => s.(notices := s.notices - {WorkerQueue(rules.conf, w)})
    case AddWorker(w, capacity, ttl) =>
      s.(workers := s.workers[w := Worker(capacity, WorkerQueue(rules.conf, w), ttl)],
         registered := s.registered[w := capacity])
    case DropWorker(w) => s.(workers := s.workers - {w})
    case TouchWorker(w, ttl) => s.(workers := s.workers[w := s.workers[w].(ttl := ttl)])
    case TouchAlloc(pk, ttl) => s.(allocs := s.allocs[pk := s.allocs[pk].(ttl := ttl)])
    case Submit(pool, dataset, size, msg) =>
      var queue := PoolQueue(rules.conf, pool);
      Send(s.(home := s.home[msg := queue]), msg, Message(queue, Eval(dataset, size, 0), msg))
  }

  function Scheduled(rules: Rules, s: State, p: nat, c: SchedulerCall): State
    requires Schedulable(rules, s, Proc(s, p), c)
  {
    var proc := Proc(s, p);
    match c
    case Receive(pool, msg) =>
      s.(procs := s.procs[p := Received(pool, msg, Normalised(s.sent[msg].eval))])
    case Claim(w) =>
      s.(workers := s.workers[w := s.workers[w].(capacity := s.workers[w].capacity - proc.eval.size)],
         procs := s.procs[p := Claimed(proc.pool, proc.msg, Attempted(proc.eval), w)])
    case Put(alloc, ttl) =>
      var pk, lineage := AllocPK(proc.pool, alloc), s.sent[proc.msg].lineage;
      var s1 := s.(allocs := s.allocs[pk := Alloc(ttl, proc.host.worker, Some(proc.eval))],
                   recorded := s.recorded[pk := Record(proc.host, proc.eval, lineage)],
                   procs := s.procs[p := Recorded(proc.pool, proc.msg, pk)]);
      s1.(best := Better(s1, lineage, Running(pk)))
    case Tell =>
      var host := s.recorded[proc.pk].host;
      var queue := WorkerQueue(rules.conf, host);
      s.(notices := s.notices[queue := s.notices[queue] + multiset{Notice(proc.pool, proc.pk.alloc, host.worker)}],
         procs := s.procs[p := Told(proc.pool, proc.msg, proc.pk)])
    case Ack =>
      var queue := PoolQueue(rules.conf, proc.pool);
      s.(evals := s.evals[queue := s.evals[queue] - {proc.msg}], procs := s.procs[p := Idle])
  }

  function Released(rules: Rules, s: State, p: nat, c: ReleaserCall): State
    requires Releasable(rules, s, Proc(s, p), c)
  {
    var proc := Proc(s, p);
    match c
    case Scan(pool, items) => s.(procs := s.procs[p := Sweeping(pool, items)])
    case Skip => s.(procs := s.procs[p := Sweeping(proc.pool, proc.items[1..])])
    case Resend(msg) =>
      var item := proc.items[0];
      var m := Message(PoolQueue(rules.conf, proc.pool), item.row.eval.value, s.recorded[item.pk].lineage);
      Send(s.(procs := s.procs[p := Deleting(proc.pool, item, proc.items[1..], false)]), msg, m)
    case Bury =>
      var item := proc.items[0];
      var lineage := s.recorded[item.pk].lineage;
      var buried := if lineage in s.dead then s.dead[lineage] else multiset{};
      s.(dead := s.dead[lineage := buried + multiset{item.row.eval.value}],
         procs := s.procs[p := Deleting(proc.pool, item, proc.items[1..], false)])
    case Drop => s.(procs := s.procs[p := Deleting(proc.pool, proc.items[0], proc.items[1..], false)])
    case Look(item) => s.(procs := s.procs[p := Deleting(item.pk.pool, item, [], true)])
    case Delete =>
      var lineage := s.recorded[proc.item.pk].lineage;
      s.(allocs := s.allocs - {proc.item.pk},
         completed := s.completed + (if proc.completes then {lineage} else {}),
         procs := s.procs[p := Crediting(proc.pool, proc.item, proc.rest, true)])
    case DeleteNothing =>
      s.(procs := s.procs[p := if rules.guarded then Sweeping(proc.pool, proc.rest)
                               else Crediting(proc.pool, proc.item, proc.rest, false)])
    case Credit =>
      var w := Host(proc.item.pk, proc.item.row);
      s.(workers := s.workers[w := s.workers[w].(capacity := s.workers[w].capacity + SizeOf(proc.item.row))],
         excess := if proc.removed then s.excess else Plus(s.excess, w, SizeOf(proc.item.row)),
         procs := s.procs[p := Sweeping(proc.pool, proc.rest)])
  }

  /** A step that is not enabled does nothing, so every list of steps is a run. */
  function Next(rules: Rules, s: State, step: Step): State {
    match step
    case Serve(r) => if Servable(rules, s, r) then Served(rules, s, r) else s
    case Schedule(p, c) => if Schedulable(rules, s, Proc(s, p), c) then Scheduled(rules, s, p, c) else s
    case Release(p, c) => if Releasable(rules, s, Proc(s, p), c) then Released(rules, s, p, c) else s
    case Fail(p) => GiveUp(s, p, AfterFailure(Proc(s, p)))
    case Crash(p) => GiveUp(s, p, Idle)
  }

  function Run(rules: Rules, s: State, steps: seq<Step>): State
    decreases |steps|
  {
    if steps == [] then s else Next(rules, Run(rules, s, steps[..|steps| - 1]), steps[|steps| - 1])
  }
}
