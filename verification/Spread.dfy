/** Claiming the worker with the most room keeps a pool even. */
module Spread {
  import opened Types
  import opened Tables
  import opened Readers

  datatype Claim = Claim(size: int, page: seq<Candidate>, choice: Candidate)

  function Claimed(workers: map<WorkerPK, Worker>, c: Claim): map<WorkerPK, Worker> {
    Credited(workers, c.choice.w, -c.size)
  }

  function AfterClaims(workers: map<WorkerPK, Worker>, claims: seq<Claim>): map<WorkerPK, Worker> {
    if claims == [] then workers else AfterClaims(Claimed(workers, claims[0]), claims[1..])
  }

  ghost predicate ProperClaim(workers: map<WorkerPK, Worker>, pool: string, now: int, c: Claim) {
    && c.size >= 1 && IsCapacityPage(workers, pool, c.size, c.page) && IsChoice(c.page, now, Some(c.choice))
    && |set w | w in workers && w.pool == pool && workers[w].capacity >= c.size| <= 10
  }

  /** Each claim takes the scheduler's choice from an up-to-date page, and at most ten
      workers fit. */
  ghost predicate Proper(workers: map<WorkerPK, Worker>, pool: string, now: int, claims: seq<Claim>) {
    claims == [] || (
      && ProperClaim(workers, pool, now, claims[0])
      && Proper(Claimed(workers, claims[0]), pool, now, claims[1..]))
  }

  predicate AllAlive(workers: map<WorkerPK, Worker>, pool: string, now: int) {
    forall w | w in workers && w.pool == pool :: workers[w].ttl >= now
  }

  /** No two workers of the pool differ by more than `d` in free capacity. */
  predicate Even(workers: map<WorkerPK, Worker>, pool: string, d: int) {
    forall v, w | v in workers && w in workers && v.pool == pool && w.pool == pool ::
      workers[v].capacity - workers[w].capacity <= d
  }

  lemma ClaimKeepsEven(workers: map<WorkerPK, Worker>, pool: string, now: int, c: Claim, d: int)
    requires ProperClaim(workers, pool, now, c) && AllAlive(workers, pool, now) && Even(workers, pool, d) && c.size <= d
    ensures Even(Claimed(workers, c), pool, d) && AllAlive(Claimed(workers, c), pool, now)
    ensures forall w | w in Claimed(workers, c) && w.pool == pool && workers[w].capacity >= 0 ::
      Claimed(workers, c)[w].capacity >= 0
  {
    var fit := Fitting(workers, pool, c.size);
    ChoiceIsBest(workers, pool, c.size, now, c.page, Some(c.choice));
    assert c.choice.w in fit && c.choice == Indexed(workers, c.choice.w);
    forall w | w in workers && w.pool == pool ensures workers[w].capacity <= c.choice.capacity {
      if workers[w].capacity >= c.size { assert w in fit; }
    }
  }

  /** Over any run of claims, the greatest difference in free capacity never exceeds the
      initial one or the largest claim, whichever is greater. */
  lemma {:induction false} SpreadBound(workers: map<WorkerPK, Worker>, pool: string, now: int, claims: seq<Claim>,
      d: int, largest: int)
    requires Even(workers, pool, d) && AllAlive(workers, pool, now) && Proper(workers, pool, now, claims)
    requires forall i | 0 <= i < |claims| :: claims[i].size <= largest
    ensures Even(AfterClaims(workers, claims), pool, if d > largest then d else largest)
  {
    var most := if d > largest then d else largest;
    if claims != [] {
      var next := Claimed(workers, claims[0]);
      ClaimKeepsEven(workers, pool, now, claims[0], most);
      SpreadBound(next, pool, now, claims[1..], most, largest);
    }
  }
}
