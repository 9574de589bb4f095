/** Queue names and replica ids are strings built from other ids; these are the
    facts about when such strings can be taken apart again. */
module Names {
  import opened Types

  /** Ids are the hexadecimal text of ten random bytes. */
  predicate IsId(s: string) {
    |s| == 20 && forall i | 0 <= i < |s| :: ('0' <= s[i] <= '9' || 'a' <= s[i] <= 'f')
  }

  function ReplicaID(dataset: string, worker: string): string {
    dataset + ":" + worker
  }

  function PoolQueue(conf: Conf, pool: string): string {
    conf.deployment + "-" + pool
  }

  function WorkerQueue(conf: Conf, w: WorkerPK): string {
    conf.deployment + "-" + w.pool + "-" + w.worker
  }

  /** Where the last colon of `s` is, or -1. */
  function LastColon(s: string): (i: int)
    ensures -1 <= i < |s| && (i >= 0 ==> s[i] == ':') && ':' !in s[i + 1..]
  {
    if s == "" then -1 else if s[|s| - 1] == ':' then |s| - 1 else LastColon(s[..|s| - 1])
  }

  lemma {:induction false} LastColonOf(dataset: string, worker: string)
    requires ':' !in worker
    ensures LastColon(ReplicaID(dataset, worker)) == |dataset|
  {
    var id := ReplicaID(dataset, worker);
    if worker != "" {
      assert id[..|id| - 1] == ReplicaID(dataset, worker[..|worker| - 1]);
      LastColonOf(dataset, worker[..|worker| - 1]);
    }
  }

  /** The worker part of a replica id starts after the last colon, so ids decode uniquely
      even when the dataset id itself holds colons. */
  lemma ReplicaIDDecodes(d1: string, w1: string, d2: string, w2: string)
    requires ':' !in w1 && ':' !in w2
    requires ReplicaID(d1, w1) == ReplicaID(d2, w2)
    ensures d1 == d2 && w1 == w2
  {
    LastColonOf(d1, w1);
    LastColonOf(d2, w2);
    var id := ReplicaID(d1, w1);
    assert id[..|d1|] == d1 && ReplicaID(d2, w2)[..|d2|] == d2;
    assert id[|d1| + 1..] == w1 && ReplicaID(d2, w2)[|d2| + 1..] == w2;
  }

  lemma PoolQueueDecodes(conf: Conf, p1: string, p2: string)
    requires PoolQueue(conf, p1) == PoolQueue(conf, p2)
    ensures p1 == p2
  {
    var n := |conf.deployment| + 1;
    assert PoolQueue(conf, p1)[n..] == p1 && PoolQueue(conf, p2)[n..] == p2;
  }

  /** Whatever the deployment is called, two workers never share a queue. */
  lemma WorkerQueueDecodes(conf: Conf, w1: WorkerPK, w2: WorkerPK)
    requires IsId(w1.pool) && IsId(w2.pool)
    requires WorkerQueue(conf, w1) == WorkerQueue(conf, w2)
    ensures w1 == w2
  {
    var n := |conf.deployment| + 1;
    var q1, q2 := WorkerQueue(conf, w1), WorkerQueue(conf, w2);
    assert q1[n..][..20] == w1.pool && q2[n..][..20] == w2.pool;
    assert q1[n + 21..] == w1.worker && q2[n + 21..] == w2.worker;
  }

  /** A worker's queue is never a pool's queue. */
  lemma QueueKindsDiffer(conf: Conf, pool: string, w: WorkerPK)
    requires IsId(pool) && IsId(w.pool)
    ensures PoolQueue(conf, pool) != WorkerQueue(conf, w)
  {
    assert |PoolQueue(conf, pool)| == |conf.deployment| + 21;
  }
}
