/** What the scheduler's queries return, as functions of the tables. */
module Readers {
  import opened Types
  import opened Names
  import opened Tables

  // Range keys are listed in string order.

  predicate Below(a: string, b: string) {
    b != "" && (a == "" || a[0] < b[0] || (a[0] == b[0] && Below(a[1..], b[1..])))
  }

  lemma {:induction false} BelowTotal(a: string, b: string)
    ensures a == b || Below(a, b) || Below(b, a)
    ensures !(Below(a, b) && Below(b, a)) && !Below(a, a)
  {
    if a != "" && b != "" {
      BelowTotal(a[1..], b[1..]);
      assert a == [a[0]] + a[1..] && b == [b[0]] + b[1..];
    }
    if a != "" { BelowSelf(a); }
  }

  /** `a` comes first if `b` continues it, or at the first difference if its character does. */
  lemma {:induction false} BelowExactly(a: string, b: string)
    ensures Below(a, b) <==> exists n :: 0 <= n < |b| && n <= |a| && a[..n] == b[..n] && (n == |a| || a[n] < b[n])
  {
    if b != "" && a != "" && a[0] == b[0] {
      BelowExactly(a[1..], b[1..]);
      if Below(a, b) {
        var n :| 0 <= n < |b[1..]| && n <= |a[1..]| && a[1..][..n] == b[1..][..n]
            && (n == |a[1..]| || a[1..][n] < b[1..][n]);
        assert a[..n + 1] == [a[0]] + a[1..][..n] && b[..n + 1] == [b[0]] + b[1..][..n];
      }
      if n :| 0 <= n < |b| && n <= |a| && a[..n] == b[..n] && (n == |a| || a[n] < b[n]) {
        assert n > 0;
        assert a[1..][..n - 1] == a[..n][1..] && b[1..][..n - 1] == b[..n][1..];
      }
    } else if b != "" {
      assert a[..0] == b[..0];
      if n :| 0 <= n < |b| && n <= |a| && a[..n] == b[..n] && (n == |a| || a[n] < b[n]) {
        if n > 0 { assert a[..n][0] == b[..n][0]; }
      }
    }
  }

  lemma {:induction false} BelowSelf(a: string)
    ensures !Below(a, a)
  {
    if a != "" { BelowSelf(a[1..]); }
  }

  lemma {:induction false} BelowTransitive(a: string, b: string, c: string)
    requires Below(a, b) && Below(b, c)
    ensures Below(a, c)
  {
    if a != "" && a[0] == b[0] && b[0] == c[0] {
      BelowTransitive(a[1..], b[1..], c[1..]);
    }
  }

  predicate Least(ids: set<string>, id: string) {
    id in ids && forall j | j in ids && j != id :: Below(id, j)
  }

  lemma {:induction false} LeastExists(ids: set<string>)
    requires ids != {}
    ensures exists id :: Least(ids, id)
    decreases ids
  {
    var id :| id in ids;
    if ids == {id} {
      assert Least(ids, id);
    } else {
      LeastExists(ids - {id});
      var least :| Least(ids - {id}, least);
      BelowTotal(id, least);
      if Below(least, id) {
        assert Least(ids, least);
      } else {
        forall j | j in ids && j != id ensures Below(id, j) {
          if j != least { BelowTransitive(id, least, j); }
        }
        assert Least(ids, id);
      }
    }
  }

  lemma LeastUnique(ids: set<string>, a: string, b: string)
    requires Least(ids, a) && Least(ids, b)
    ensures a == b
  {
    BelowTotal(a, b);
  }

  ghost function First(ids: set<string>): (id: string)
    requires ids != {}
    ensures Least(ids, id)
  {
    LeastExists(ids);
    var id :| Least(ids, id);
    id
  }

  /** All of `ids` in ascending order. */
  ghost function Listing(ids: set<string>): seq<string>
    decreases ids
  {
    if ids == {} then [] else [First(ids)] + Listing(ids - {First(ids)})
  }

  lemma {:induction false} ListingMembers(ids: set<string>)
    ensures forall id :: id in Listing(ids) <==> id in ids
    ensures |Listing(ids)| == |ids|
    decreases ids
  {
    if ids != {} {
      ListingMembers(ids - {First(ids)});
    }
  }

  /** The ids that are listed before `id`. */
  function Preceding(ids: set<string>, id: string): set<string> {
    set j | j in ids && Below(j, id)
  }

  lemma FirstPrecedes(ids: set<string>, id: string)
    requires id in ids
    ensures Preceding(ids, First(ids)) == {}
    ensures id != First(ids) ==> |Preceding(ids, id)| == 1 + |Preceding(ids - {First(ids)}, id)|
  {
    var f := First(ids);
    forall j | j in ids ensures !Below(j, f) {
      BelowTotal(j, f);
    }
    if id != f {
      assert Preceding(ids, id) == {f} + Preceding(ids - {f}, id);
    }
  }

  /** The place of an id in the listing is the number of ids below it. */
  lemma {:induction false} PlaceInListing(ids: set<string>, i: nat)
    requires i < |Listing(ids)|
    ensures |Preceding(ids, Listing(ids)[i])| == i
    decreases ids
  {
    var f := First(ids);
    var rest := Listing(ids - {f});
    assert Listing(ids) == [f] + rest;
    hide Preceding, Listing, First;
    FirstPrecedes(ids, f);
    if i > 0 {
      var id := rest[i - 1];
      assert id in rest;
      ListingMembers(ids - {f});
      FirstPrecedes(ids, id);
      PlaceInListing(ids - {f}, i - 1);
    }
  }

  lemma OnFirstPage(ids: set<string>, id: string)
    ensures id in Page(Listing(ids)) <==> id in ids && |Preceding(ids, id)| < 10
  {
    ListingMembers(ids);
    var all := Listing(ids);
    if id in Page(all) {
      var i :| 0 <= i < |Page(all)| && Page(all)[i] == id;
      PlaceInListing(ids, i);
      assert all[i] == id;
    }
    if id in ids && |Preceding(ids, id)| < 10 {
      var i :| 0 <= i < |all| && all[i] == id;
      PlaceInListing(ids, i);
      assert Page(all)[i] == id;
    }
  }

  const PAGE := 10

  function Page<T>(s: seq<T>): seq<T> {
    if |s| <= PAGE then s else s[..PAGE]
  }

  function Chosen<T>(s: seq<T>, keep: set<T>): seq<T> {
    if s == [] then [] else (if s[0] in keep then [s[0]] else []) + Chosen(s[1..], keep)
  }

  lemma {:induction false} ChosenMembers<T>(s: seq<T>, keep: set<T>)
    ensures forall x :: x in Chosen(s, keep) <==> x in s && x in keep
  {
    if s != [] { ChosenMembers(s[1..], keep); }
  }

  lemma {:induction false} ChosenAppend<T>(s: seq<T>, t: seq<T>, keep: set<T>)
    ensures Chosen(s + t, keep) == Chosen(s, keep) + Chosen(t, keep)
  {
    if s == [] {
      assert s + t == t;
    } else {
      var head := if s[0] in keep then [s[0]] else [];
      assert (s + t)[1..] == s[1..] + t;
      assert Chosen(s + t, keep) == head + Chosen(s[1..] + t, keep) && Chosen(s, keep) == head + Chosen(s[1..], keep);
      ChosenAppend(s[1..], t, keep);
      hide Chosen;
    }
  }

  lemma {:induction false} ChosenLength<T>(s: seq<T>, keep: set<T>)
    ensures |Chosen(s, keep)| <= |s|
  {
    if s != [] { ChosenLength(s[1..], keep); }
  }

  lemma {:induction false} ChosenTwice<T>(s: seq<T>, keep: set<T>)
    requires forall x | x in s :: x in keep
    ensures Chosen(s, keep) == s
  {
    if s != [] { ChosenTwice(s[1..], keep); }
  }

  /** Choosing from the first page gives a prefix of the first page of the chosen. */
  lemma PageOfChosen<T>(s: seq<T>, keep: set<T>)
    ensures Chosen(Page(s), keep) <= Chosen(Page(Chosen(s, keep)), keep)
  {
    var all := Chosen(s, keep);
    if |s| > PAGE {
      assert s == s[..PAGE] + s[PAGE..];
      ChosenAppend(s[..PAGE], s[PAGE..], keep);
      ChosenLength(s[..PAGE], keep);
    } else {
      ChosenLength(s, keep);
    }
    assert Chosen(Page(s), keep) <= Page(all);
    ChosenMembers(s, keep);
    ChosenTwice(Page(all), keep);
  }

  lemma {:induction false} ListingOfChosen(ids: set<string>, keep: set<string>)
    ensures Chosen(Listing(ids), keep) == Listing(ids * keep)
    decreases ids
  {
    if ids == {} {
      assert ids * keep == {};
    } else {
      var id := First(ids);
      ListingOfChosen(ids - {id}, keep);
      if id in keep {
        assert id in ids * keep;
        LeastUnique(ids * keep, id, First(ids * keep));
        assert ids * keep - {id} == (ids - {id}) * keep;
      } else {
        assert ids * keep == (ids - {id}) * keep;
      }
    }
  }

  // FindReplicas.

  predicate IsPrefix(p: string, s: string) {
    |p| <= |s| && s[..|p|] == p
  }

  /** begins_with(rpl, dataset): the dataset id alone, without the separator. */
  function Matching(replicas: map<ReplicaPK, int>, pool: string, dataset: string): set<string> {
    set r | r in replicas && r.pool == pool && IsPrefix(dataset, r.replica) :: r.replica
  }

  function Unexpired(replicas: map<ReplicaPK, int>, pool: string, now: int): set<string> {
    set r | r in replicas && r.pool == pool && replicas[r] >= now :: r.replica
  }

  /** What FindReplicas returns. An eval without a dataset is not looked up at all. */
  ghost function Found(replicas: map<ReplicaPK, int>, pool: string, dataset: string, now: int): seq<string> {
    if dataset == "" then []
    else Chosen(Page(Listing(Matching(replicas, pool, dataset))), Unexpired(replicas, pool, now))
  }

  /** Removing expired replicas only helps a reader: at the same time, what it finds before
      is a prefix of what it finds after. */
  lemma SweepHelpsFindReplicas(replicas: map<ReplicaPK, int>, pool: string, dataset: string, now: int,
      pools: set<string>)
    requires pool in pools
    ensures Found(replicas, pool, dataset, now)
         <= Found(replicas - StaleReplicas(replicas, pools, now), pool, dataset, now)
  {
    var after := replicas - StaleReplicas(replicas, pools, now);
    var keep, ids := Unexpired(replicas, pool, now), Matching(replicas, pool, dataset);
    forall r | r in replicas && r.pool == pool ensures r in after <==> replicas[r] >= now {}
    assert Unexpired(after, pool, now) == keep;
    forall id | id in ids * keep ensures id in Matching(after, pool, dataset) {
      assert ReplicaPK(pool, id) in after;
    }
    assert Matching(after, pool, dataset) == ids * keep;
    PageOfChosen(Listing(ids), keep);
    ListingOfChosen(ids, keep);
  }

  /** Fewer than ten rows that begin with the dataset id come before this one, and the query
      is made at all. */
  predicate Shown(replicas: map<ReplicaPK, int>, pool: string, dataset: string, id: string) {
    dataset != "" && |Preceding(Matching(replicas, pool, dataset), id)| < 10
  }

  /** A row is found if and only if it is stored, begins with the dataset id, is unexpired,
      and is shown. */
  lemma FoundRanked(replicas: map<ReplicaPK, int>, pool: string, dataset: string, now: int, id: string)
    ensures var r := ReplicaPK(pool, id);
      id in Found(replicas, pool, dataset, now) <==>
        && r in replicas && replicas[r] >= now && |dataset| <= |id| && id[..|dataset|] == dataset
        && dataset != "" && |Preceding(Matching(replicas, pool, dataset), id)| < 10
  {
    var ids, keep := Matching(replicas, pool, dataset), Unexpired(replicas, pool, now);
    var r := ReplicaPK(pool, id);
    assert id in ids <==> r in replicas && IsPrefix(dataset, id);
    assert id in keep <==> r in replicas && replicas[r] >= now;
    OnFirstPage(ids, id);
    ChosenMembers(Page(Listing(ids)), keep);
  }

  lemma FewPrecede(ids: set<string>, id: string)
    requires id in ids
    ensures |Preceding(ids, id)| < |ids|
  {
    BelowSelf(id);
    assert Preceding(ids, id) <= ids - {id};
    FewerThan(Preceding(ids, id), ids - {id});
  }

  lemma FewerThan<T>(a: set<T>, b: set<T>)
    requires a <= b
    ensures |a| <= |b|
  {
    assert b == a + (b - a);
  }

  /** With at most ten matches nothing is cut off: exactly the unexpired matches are found. */
  lemma FoundExactly(replicas: map<ReplicaPK, int>, pool: string, dataset: string, now: int, id: string)
    requires |Matching(replicas, pool, dataset)| <= 10
    ensures var r := ReplicaPK(pool, id);
      id in Found(replicas, pool, dataset, now) <==>
        dataset != "" && r in replicas && IsPrefix(dataset, id) && replicas[r] >= now
  {
    FoundRanked(replicas, pool, dataset, now, id);
    if ReplicaPK(pool, id) in replicas && IsPrefix(dataset, id) {
      assert ReplicaPK(pool, id).replica in Matching(replicas, pool, dataset);
      FewPrecede(Matching(replicas, pool, dataset), id);
    }
  }

  /** In particular every unexpired replica of the dataset, unless its id is empty. */
  lemma FindsEveryReplica(replicas: map<ReplicaPK, int>, pool: string, dataset: string, now: int, w: string)
    requires |Matching(replicas, pool, dataset)| <= 10
    requires var r := ReplicaPK(pool, ReplicaID(dataset, w)); r in replicas && replicas[r] >= now
    ensures ReplicaID(dataset, w) in Found(replicas, pool, dataset, now) <==> dataset != ""
  {
    assert ReplicaID(dataset, w)[..|dataset|] == dataset;
    FoundExactly(replicas, pool, dataset, now, ReplicaID(dataset, w));
  }

  /** The dataset part of a replica id. */
  function DatasetOf(replica: string): string {
    if LastColon(replica) >= 0 then replica[..LastColon(replica)] else replica
  }

  /** The worker part of a replica id. */
  function WorkerOf(replica: string): string {
    replica[LastColon(replica) + 1..]
  }

  /** Every stored id is of the form a heartbeat writes, dataset and worker around a colon. */
  predicate WellFormed(replicas: map<ReplicaPK, int>) {
    forall r | r in replicas :: LastColon(r.replica) >= 0
  }

  /** A query for `dataset` takes the replica of dataset `other` on `worker` for its own. */
  predicate Confusable(dataset: string, other: string, worker: string) {
    || IsPrefix(dataset, other)
    || (IsPrefix(other + ":", dataset) && IsPrefix(dataset[|other| + 1..], worker))
  }

  /** The result holds the unexpired replicas of the dataset and nothing else. */
  ghost predicate FoundRight(replicas: map<ReplicaPK, int>, pool: string, dataset: string, now: int) {
    forall id :: id in Found(replicas, pool, dataset, now) <==>
      var r := ReplicaPK(pool, id); r in replicas && replicas[r] >= now && DatasetOf(id) == dataset
  }

  predicate NoneConfusable(replicas: map<ReplicaPK, int>, pool: string, dataset: string, now: int) {
    forall r | r in replicas && r.pool == pool && replicas[r] >= now ::
      DatasetOf(r.replica) == dataset || !Confusable(dataset, DatasetOf(r.replica), WorkerOf(r.replica))
  }

  predicate NoneOwn(replicas: map<ReplicaPK, int>, pool: string, dataset: string, now: int) {
    forall r | r in replicas && r.pool == pool && replicas[r] >= now :: DatasetOf(r.replica) != dataset
  }

  lemma IdParts(replica: string)
    requires LastColon(replica) >= 0
    ensures replica == ReplicaID(DatasetOf(replica), WorkerOf(replica))
  {
  }

  lemma PrefixOfId(dataset: string, other: string, worker: string)
    ensures IsPrefix(dataset, ReplicaID(other, worker)) <==> Confusable(dataset, other, worker)
  {
    var id := ReplicaID(other, worker);
    assert id == other + ":" + worker && id[..|other|] == other && id[..|other| + 1] == other + ":"
        && id[|other| + 1..] == worker;
    if |dataset| <= |other| {
      assert id[..|dataset|] == other[..|dataset|];
    } else if IsPrefix(dataset, id) {
      var rest := dataset[|other| + 1..];
      assert dataset[..|other| + 1] == id[..|other| + 1];
      assert rest == worker[..|rest|];
    }
  }

  lemma OwnPrefix(dataset: string, worker: string)
    ensures IsPrefix(dataset, ReplicaID(dataset, worker))
  {
    assert ReplicaID(dataset, worker)[..|dataset|] == dataset;
  }

  lemma FoundWhenConfused(replicas: map<ReplicaPK, int>, pool: string, dataset: string, now: int, id: string)
    requires WellFormed(replicas) && ReplicaPK(pool, id) in replicas && replicas[ReplicaPK(pool, id)] >= now
    ensures id in Found(replicas, pool, dataset, now)
       <==> Confusable(dataset, DatasetOf(id), WorkerOf(id)) && Shown(replicas, pool, dataset, id)
    ensures DatasetOf(id) == dataset ==> Confusable(dataset, DatasetOf(id), WorkerOf(id))
  {
    FoundRanked(replicas, pool, dataset, now, id);
    assert ReplicaPK(pool, id).replica == id;
    IdParts(id);
    PrefixOfId(dataset, DatasetOf(id), WorkerOf(id));
    if DatasetOf(id) == dataset { OwnPrefix(dataset, WorkerOf(id)); }
  }

  /** For any table of replicas and any dataset id, the empty one included: FindReplicas
      returns exactly the unexpired replicas of the dataset if and only if, of the unexpired
      rows, its own are all shown, and those it can be confused with are not. */
  lemma FindsExactly(replicas: map<ReplicaPK, int>, pool: string, dataset: string, now: int)
    requires WellFormed(replicas)
    ensures FoundRight(replicas, pool, dataset, now) <==>
      forall r | r in replicas && r.pool == pool && replicas[r] >= now
                 && Confusable(dataset, DatasetOf(r.replica), WorkerOf(r.replica)) ::
        DatasetOf(r.replica) == dataset <==> Shown(replicas, pool, dataset, r.replica)
  {
    forall id | ReplicaPK(pool, id) in replicas && replicas[ReplicaPK(pool, id)] >= now
      ensures id in Found(replicas, pool, dataset, now)
         <==> Confusable(dataset, DatasetOf(id), WorkerOf(id)) && Shown(replicas, pool, dataset, id)
      ensures DatasetOf(id) == dataset ==> Confusable(dataset, DatasetOf(id), WorkerOf(id))
    {
      FoundWhenConfused(replicas, pool, dataset, now, id);
    }
    forall id | id in Found(replicas, pool, dataset, now)
      ensures ReplicaPK(pool, id) in replicas && replicas[ReplicaPK(pool, id)] >= now
    {
      FoundRanked(replicas, pool, dataset, now, id);
    }
    hide Found, Confusable, Shown, DatasetOf, WorkerOf;
    forall r | r in replicas && r.pool == pool ensures r == ReplicaPK(pool, r.replica) {}
    if FoundRight(replicas, pool, dataset, now) {
      forall r | r in replicas && r.pool == pool && replicas[r] >= now
                 && Confusable(dataset, DatasetOf(r.replica), WorkerOf(r.replica))
        ensures DatasetOf(r.replica) == dataset <==> Shown(replicas, pool, dataset, r.replica)
      {
        assert r == ReplicaPK(pool, r.replica);
        assert r.replica in Found(replicas, pool, dataset, now) <==> DatasetOf(r.replica) == dataset;
      }
    }
  }

  /** In particular, with at most ten matches, if and only if no unexpired row of another
      dataset can be confused with it; and for the empty id, which is never looked up, if
      and only if there is no unexpired replica of it. */
  lemma FindsExactlyOnOnePage(replicas: map<ReplicaPK, int>, pool: string, dataset: string, now: int)
    requires WellFormed(replicas) && |Matching(replicas, pool, dataset)| <= 10
    ensures FoundRight(replicas, pool, dataset, now) <==>
      if dataset == "" then NoneOwn(replicas, pool, dataset, now) else NoneConfusable(replicas, pool, dataset, now)
  {
    FindsExactly(replicas, pool, dataset, now);
    if dataset != "" {
      forall r | r in replicas && r.pool == pool && Confusable(dataset, DatasetOf(r.replica), WorkerOf(r.replica))
        ensures Shown(replicas, pool, dataset, r.replica)
      {
        IdParts(r.replica);
        PrefixOfId(dataset, DatasetOf(r.replica), WorkerOf(r.replica));
        assert r.replica in Matching(replicas, pool, dataset);
        FewPrecede(Matching(replicas, pool, dataset), r.replica);
      }
    }
  }

  /** A heartbeat may list the empty dataset id, but its replica is never found. */
  lemma EmptyIdMissed(pool: string, w: string, now: int)
    requires ':' !in w
    ensures var replicas := map[ReplicaPK(pool, ReplicaID("", w)) := now];
      && Found(replicas, pool, "", now) == [] && DatasetOf(ReplicaID("", w)) == ""
      && !FoundRight(replicas, pool, "", now) && NoneConfusable(replicas, pool, "", now)
  {
    LastColonOf("", w);
    var replicas := map[ReplicaPK(pool, ReplicaID("", w)) := now];
    assert ReplicaID("", w) !in Found(replicas, pool, "", now);
  }

  lemma OnlyRow(pool: string, id: string, dataset: string, now: int)
    requires IsPrefix(dataset, id) && dataset != ""
    ensures Found(map[ReplicaPK(pool, id) := now], pool, dataset, now) == [id]
  {
    var replicas := map[ReplicaPK(pool, id) := now];
    assert Matching(replicas, pool, dataset) == {id};
    assert Unexpired(replicas, pool, now) == {id};
    assert First({id}) == id;
    assert {id} - {id} == {};
    assert Listing({id}) == [id] + Listing({}) == [id];
    assert Chosen([id], {id}) == [id] + Chosen([], {id}) by {
      assert [id][1..] == [];
    }
  }

  /** Dataset d1 also finds the replicas of d10. */
  lemma PrefixConfusion(pool: string, w: string, now: int)
    requires ':' !in w
    ensures var replicas := map[ReplicaPK(pool, ReplicaID("d10", w)) := now];
      Found(replicas, pool, "d1", now) == [ReplicaID("d10", w)] && DatasetOf(ReplicaID("d10", w)) == "d10"
  {
    assert ReplicaID("d10", w)[..2] == "d1";
    OnlyRow(pool, ReplicaID("d10", w), "d1", now);
    LastColonOf("d10", w);
  }

  /** Dataset d:0 also finds the replica of d on any worker whose id starts with 0. */
  lemma ColonConfusion(pool: string, w: string, now: int)
    requires IsId(w) && w[0] == '0'
    ensures var replicas := map[ReplicaPK(pool, ReplicaID("d", w)) := now];
      Found(replicas, pool, "d:0", now) == [ReplicaID("d", w)] && DatasetOf(ReplicaID("d", w)) == "d"
  {
    assert ReplicaID("d", w)[..3] == "d:0";
    OnlyRow(pool, ReplicaID("d", w), "d:0", now);
    LastColonOf("d", w);
  }

  /** A dataset has at most one replica row per worker in a pool. */
  lemma OneReplicaPerWorker(pool: string, d1: string, w1: string, d2: string, w2: string)
    requires IsId(w1) && IsId(w2)
    ensures ReplicaPK(pool, ReplicaID(d1, w1)) == ReplicaPK(pool, ReplicaID(d2, w2)) <==> d1 == d2 && w1 == w2
    ensures DatasetOf(ReplicaID(d1, w1)) == d1
  {
    LastColonOf(d1, w1);
    assert ReplicaID(d1, w1)[..|d1|] == d1;
    if ReplicaID(d1, w1) == ReplicaID(d2, w2) { ReplicaIDDecodes(d1, w1, d2, w2); }
  }

  // The capacity index.

  /** What the index projects of a worker row. */
  datatype Candidate = Candidate(w: WorkerPK, capacity: int, ttl: int)

  function Indexed(workers: map<WorkerPK, Worker>, w: WorkerPK): Candidate
    requires w in workers
  {
    Candidate(w, workers[w].capacity, workers[w].ttl)
  }

  function Fitting(workers: map<WorkerPK, Worker>, pool: string, size: int): set<WorkerPK> {
    set w | w in workers && w.pool == pool && workers[w].capacity >= size
  }

  /** A page of the index: ten fitting rows of least capacity, or all of them if fewer,
      in ascending order of capacity; rows of equal capacity come in any order. */
  ghost predicate IsCapacityPage(workers: map<WorkerPK, Worker>, pool: string, size: int, page: seq<Candidate>) {
    var fit := Fitting(workers, pool, size);
    && |page| <= PAGE
    && (forall i | 0 <= i < |page| :: page[i].w in fit && page[i] == Indexed(workers, page[i].w))
    && (forall i, j | 0 <= i < j < |page| :: page[i].w != page[j].w && page[i].capacity <= page[j].capacity)
    && (forall w | w in fit && Indexed(workers, w) !in page ::
          |page| == PAGE && forall i | 0 <= i < |page| :: page[i].capacity <= workers[w].capacity)
  }

  function Alive(page: seq<Candidate>, now: int): seq<Candidate> {
    if page == [] then [] else (if page[0].ttl >= now then [page[0]] else []) + Alive(page[1..], now)
  }

  /** The worker to claim: an unexpired candidate of maximal capacity. */
  ghost predicate IsChoice(page: seq<Candidate>, now: int, choice: Option<Candidate>) {
    match choice
    case None => forall c | c in page :: c.ttl < now
    case Some(c) => c in page && c.ttl >= now && forall d | d in page && d.ttl >= now :: d.capacity <= c.capacity
  }

  lemma {:induction false} SmallSubset<T>(xs: seq<T>, all: set<T>)
    requires forall i | 0 <= i < |xs| :: xs[i] in all
    requires forall i, j | 0 <= i < j < |xs| :: xs[i] != xs[j]
    ensures |xs| <= |all| && (|xs| == |all| ==> forall x | x in all :: x in xs)
    decreases |xs|
  {
    if xs != [] {
      var n := |xs| - 1;
      SmallSubset(xs[..n], all - {xs[n]});
      assert xs == xs[..n] + [xs[n]];
      forall x | x in all && |xs| == |all| ensures x in xs {
        if x != xs[n] { assert x in xs[..n]; }
      }
    }
  }

  /** A page of the capacity index, read off the workers table: at most ten workers with
      the room, each as it is stored, and any other worker with the room has at least as much
      as all ten of them. */
  lemma PageSpelledOut(workers: map<WorkerPK, Worker>, pool: string, size: int, page: seq<Candidate>)
    requires IsCapacityPage(workers, pool, size, page)
    ensures |page| <= 10
    ensures forall c | c in page ::
      && c.w in workers && c.w.pool == pool && workers[c.w].capacity >= size
      && c.capacity == workers[c.w].capacity && c.ttl == workers[c.w].ttl
    ensures forall w | w in workers && w.pool == pool && workers[w].capacity >= size ::
      || Candidate(w, workers[w].capacity, workers[w].ttl) in page
      || (|page| == 10 && forall c | c in page :: c.capacity <= workers[w].capacity)
  {
    forall w | w in workers && w.pool == pool && workers[w].capacity >= size
      ensures w in Fitting(workers, pool, size)
      ensures Indexed(workers, w) == Candidate(w, workers[w].capacity, workers[w].ttl)
    {}
  }

  /** If at most ten workers fit, the choice is the true maximum over the pool, and there is
      no choice exactly when no unexpired worker fits. */
  lemma ChoiceIsBest(workers: map<WorkerPK, Worker>, pool: string, size: int, now: int, page: seq<Candidate>,
      choice: Option<Candidate>)
    requires IsCapacityPage(workers, pool, size, page) && IsChoice(page, now, choice)
    requires |set w | w in workers && w.pool == pool && workers[w].capacity >= size| <= 10
    ensures choice.None? <==>
      forall w | w in workers && w.pool == pool && workers[w].capacity >= size :: workers[w].ttl < now
    ensures choice.Some? ==> var best := choice.value.w;
      && best in workers && best.pool == pool && workers[best].capacity >= size
      && workers[best].ttl >= now && workers[best].capacity == choice.value.capacity
      && forall w | w in workers && w.pool == pool && workers[w].capacity >= size && workers[w].ttl >= now ::
           workers[w].capacity <= workers[best].capacity
  {
    var fit := set w | w in workers && w.pool == pool && workers[w].capacity >= size;
    PageSpelledOut(workers, pool, size, page);
    var ws := seq(|page|, i requires 0 <= i < |page| => page[i].w);
    forall i | 0 <= i < |ws| ensures ws[i] in fit {
      assert page[i] in page;
    }
    SmallSubset(ws, fit);
    forall w | w in fit ensures Candidate(w, workers[w].capacity, workers[w].ttl) in page {
      if |page| == 10 {
        assert w in ws;
        var i :| 0 <= i < |ws| && ws[i] == w;
        assert page[i] in page;
      }
    }
  }

  lemma {:induction false} AliveMembers(page: seq<Candidate>, now: int)
    ensures forall c :: c in Alive(page, now) <==> c in page && c.ttl >= now
  {
    if page != [] { AliveMembers(page[1..], now); }
  }

  lemma {:induction false} AliveAppend(s: seq<Candidate>, t: seq<Candidate>, now: int)
    ensures Alive(s + t, now) == Alive(s, now) + Alive(t, now)
  {
    if s == [] {
      assert s + t == t;
    } else {
      var head := if s[0].ttl >= now then [s[0]] else [];
      assert (s + t)[1..] == s[1..] + t;
      assert Alive(s + t, now) == head + Alive(s[1..] + t, now) && Alive(s, now) == head + Alive(s[1..], now);
      AliveAppend(s[1..], t, now);
      hide Alive;
    }
  }

  lemma {:induction false} AliveTwice(s: seq<Candidate>, now: int)
    ensures |Alive(s, now)| <= |s|
    ensures (forall c | c in s :: c.ttl >= now) ==> Alive(s, now) == s
  {
    if s != [] { AliveTwice(s[1..], now); }
  }

  /** With the surviving index rows in the same order, the candidates before expired workers
      are removed are a prefix of those after. */
  lemma CandidatesGrow(rows: seq<Candidate>, now: int)
    ensures Alive(Page(rows), now) <= Alive(Page(Alive(rows, now)), now)
  {
    var all := Alive(rows, now);
    if |rows| > PAGE {
      assert rows == rows[..PAGE] + rows[PAGE..];
      AliveAppend(rows[..PAGE], rows[PAGE..], now);
      AliveTwice(rows[..PAGE], now);
    } else {
      AliveTwice(rows, now);
    }
    assert Alive(Page(rows), now) <= Page(all);
    AliveMembers(rows, now);
    AliveTwice(Page(all), now);
  }

  lemma PageIsDistinct(workers: map<WorkerPK, Worker>, pool: string, size: int, page: seq<Candidate>, extra: WorkerPK,
      ws: set<WorkerPK>)
    requires IsCapacityPage(workers, pool, size, page)
    requires extra in ws && forall c | c in page :: c.w != extra && c.w in ws
    ensures |ws| > |page|
  {
    var xs := seq(|page|, i requires 0 <= i < |page| => page[i].w) + [extra];
    forall i | 0 <= i < |xs| ensures xs[i] in ws {
      if i < |page| { assert page[i] in page; }
    }
    SmallSubset(xs, ws);
  }

  function WorkersOn(page: seq<Candidate>): (ws: set<WorkerPK>)
    ensures |ws| <= |page|
    ensures forall c | c in page :: c.w in ws
  {
    if page == [] then {} else
      var ws := WorkersOn(page[1..]);
      assert forall c | c in page :: c == page[0] || c in page[1..];
      {page[0].w} + ws
  }

  /** If candidate `c` of the first page is not on the page after expired workers are removed,
      that page has a candidate with at least its capacity: ten smaller ones and `c` would not
      all have fitted on the first page. */
  lemma NoSmallerPage(workers: map<WorkerPK, Worker>, pool: string, size: int, stale: set<WorkerPK>,
                      page: seq<Candidate>, after: seq<Candidate>, c: Candidate)
    requires IsCapacityPage(workers, pool, size, page) && IsCapacityPage(workers - stale, pool, size, after)
    requires c in page && c.w !in stale && c !in after
    ensures exists d :: d in after && d.capacity >= c.capacity
  {
    assert c.w in Fitting(workers - stale, pool, size) && c == Indexed(workers - stale, c.w);
    assert |after| == PAGE;
    if forall d | d in after :: d.capacity < c.capacity {
      forall d | d in after ensures d in page && d.w != c.w {
        assert d.w in Fitting(workers, pool, size) && d == Indexed(workers, d.w);
      }
      PageIsDistinct(workers - stale, pool, size, after, c.w, WorkersOn(page));
    }
  }

  /** Removing expired workers only helps the scheduler: whatever page it gets before and
      after, and however ties are ordered, the capacity it chooses does not get smaller. */
  lemma SweepHelpsScheduler(workers: map<WorkerPK, Worker>, pool: string, size: int, now: int, pools: set<string>,
                            page: seq<Candidate>, before: Option<Candidate>, later: seq<Candidate>,
                            after: Option<Candidate>)
    requires pool in pools
    requires IsCapacityPage(workers, pool, size, page) && IsChoice(page, now, before)
    requires IsCapacityPage(workers - StaleWorkers(workers, pools, now), pool, size, later)
    requires IsChoice(later, now, after)
    ensures before.Some? ==> after.Some? && before.value.capacity <= after.value.capacity
  {
    var stale := StaleWorkers(workers, pools, now);
    forall d | d in later ensures d.ttl >= now {
      assert d.w in Fitting(workers - stale, pool, size);
    }
    if before.Some? {
      var c := before.value;
      assert c.w in Fitting(workers, pool, size) && c == Indexed(workers, c.w);
      if c !in later { NoSmallerPage(workers, pool, size, stale, page, later, c); }
    }
  }
}
