/** The rows, messages and configuration of the capacity-allocation protocol,
    and the small rules that several components share. */
module Types {

  datatype Option<+T> = None | Some(value: T)

  /** Lease lengths are in seconds, as is the clock. */
  datatype Conf = Conf(deployment: string, poolTTL: int, workerTTL: int,
                       replicaTTL: int, allocTTL: int, maxRetry: int)

  datatype Eval = Eval(dataset: string, size: int, retry: int)

  datatype Pool = Pool(queue: string, ttl: int)

  datatype WorkerPK = WorkerPK(pool: string, worker: string)
  datatype Worker = Worker(capacity: int, queue: string, ttl: int)

  datatype AllocPK = AllocPK(pool: string, alloc: string)

  /** A stored row may lack its worker or its eval; the sweeper skips such a row. */
  datatype Alloc = Alloc(ttl: int, worker: string, eval: Option<Eval>)

  datatype ReplicaPK = ReplicaPK(pool: string, replica: string)

  /** What a worker reads from its own queue. */
  datatype Notice = Notice(pool: string, alloc: string, worker: string)

  /** A pool row with a positive ttl is marked for deletion. */
  predicate Disbanded(pool: Pool) {
    pool.ttl > 0
  }

  predicate Sound(row: Alloc) {
    row.worker != "" && row.eval.Some?
  }

  function Host(pk: AllocPK, row: Alloc): WorkerPK {
    WorkerPK(pk.pool, row.worker)
  }

  function SizeOf(row: Alloc): int {
    if row.eval.Some? then row.eval.value.size else 0
  }

  /** An eval asks for at least one unit of capacity. */
  function Normalised(eval: Eval): Eval {
    if eval.size < 1 then eval.(size := 1) else eval
  }

  /** The attempt that turns a queued eval into an alloc is counted in the alloc's copy. */
  function Attempted(eval: Eval): Eval {
    eval.(retry := eval.retry + 1)
  }

  /** A spent eval goes to the dead-letter queue instead of the pool's queue. */
  predicate Spent(conf: Conf, eval: Eval) {
    eval.retry >= conf.maxRetry
  }

  /** The number of attempts an eval gets before it is dead-lettered. */
  function Attempts(conf: Conf): int {
    if conf.maxRetry > 1 then conf.maxRetry else 1
  }
}
