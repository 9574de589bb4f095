/** Order-independent sums and collections over the values of a map. */
module Sums {

  ghost function Total<K(!new)>(m: map<K, int>): int
    decreases m.Keys
  {
    if m == map[] then 0 else var k :| k in m; assert (m - {k}).Keys < m.Keys; m[k] + Total(m - {k})
  }

  lemma {:induction false} TotalAt<K(!new)>(m: map<K, int>, k: K)
    requires k in m
    ensures Total(m) == m[k] + Total(m - {k})
    decreases m.Keys
  {
    var j :| j in m && Total(m) == m[j] + Total(m - {j});
    if j != k {
      assert (m - {j}).Keys < m.Keys && (m - {k}).Keys < m.Keys;
      TotalAt(m - {j}, k);
      TotalAt(m - {k}, j);
      assert m - {j} - {k} == m - {k} - {j};
    }
  }

  function At<K>(m: map<K, int>, k: K): int {
    if k in m then m[k] else 0
  }

  lemma TotalSet<K(!new)>(m: map<K, int>, k: K, v: int)
    ensures Total(m[k := v]) == Total(m) - At(m, k) + v
  {
    TotalAt(m[k := v], k);
    if k in m {
      TotalAt(m, k);
      assert m[k := v] - {k} == m - {k};
    } else {
      assert m[k := v] - {k} == m;
    }
  }

  lemma TotalWithout<K(!new)>(m: map<K, int>, k: K)
    ensures Total(m - {k}) == Total(m) - At(m, k)
  {
    if k in m {
      TotalAt(m, k);
    } else {
      assert m - {k} == m;
    }
  }

  lemma {:induction false} TotalPositive<K(!new)>(m: map<K, int>)
    requires forall k | k in m :: m[k] >= 0
    ensures Total(m) >= 0
    decreases m.Keys
  {
    if m != map[] {
      var k :| k in m;
      TotalAt(m, k);
      assert (m - {k}).Keys < m.Keys;
      TotalPositive(m - {k});
    }
  }

  lemma {:induction false} TotalZero<K(!new)>(m: map<K, int>)
    requires forall k | k in m :: m[k] == 0
    ensures Total(m) == 0
    decreases m.Keys
  {
    if m != map[] {
      var k :| k in m;
      TotalAt(m, k);
      assert (m - {k}).Keys < m.Keys;
      TotalZero(m - {k});
    }
  }

  /** The values of a map, each as often as it occurs. */
  ghost function Bag<K(!new), V>(m: map<K, V>): multiset<V>
    decreases m.Keys
  {
    if m == map[] then multiset{} else var k :| k in m; assert (m - {k}).Keys < m.Keys; multiset{m[k]} + Bag(m - {k})
  }

  lemma SwapFirstTwo<V>(a: multiset<V>, b: multiset<V>, c: multiset<V>)
    ensures a + (b + c) == b + (a + c)
  {
  }

  lemma BagStep<K(!new), V>(m: map<K, V>) returns (k: K)
    requires m != map[]
    ensures k in m && (m - {k}).Keys < m.Keys && Bag(m) == multiset{m[k]} + Bag(m - {k})
  {
    k :| k in m && Bag(m) == multiset{m[k]} + Bag(m - {k});
  }

  lemma {:induction false} BagAt<K(!new), V>(m: map<K, V>, k: K)
    requires k in m
    ensures Bag(m) == multiset{m[k]} + Bag(m - {k})
    decreases m.Keys
  {
    hide Bag;
    var j := BagStep(m);
    if j != k {
      assert (m - {k}).Keys < m.Keys;
      BagAt(m - {j}, k);
      BagAt(m - {k}, j);
      assert m - {j} - {k} == m - {k} - {j};
      SwapFirstTwo(multiset{m[j]}, multiset{m[k]}, Bag(m - {j} - {k}));
    }
  }

  lemma BagAdd<K(!new), V>(m: map<K, V>, k: K, v: V)
    requires k !in m
    ensures Bag(m[k := v]) == Bag(m) + multiset{v}
  {
    BagAt(m[k := v], k);
    assert m[k := v] - {k} == m;
  }

  lemma {:induction false} TotalUnion<K(!new)>(a: map<K, int>, b: map<K, int>)
    requires a.Keys !! b.Keys
    ensures Total(a + b) == Total(a) + Total(b)
    decreases b.Keys
  {
    if b == map[] {
      assert a + b == a;
    } else {
      var k :| k in b;
      assert (b - {k}).Keys < b.Keys && a + b - {k} == a + (b - {k});
      TotalAt(b, k);
      TotalAt(a + b, k);
      TotalUnion(a, b - {k});
    }
  }

  lemma SumAssociates<V>(a: multiset<V>, b: multiset<V>, c: multiset<V>)
    ensures (a + b) + c == a + (b + c)
  {
  }

  lemma OneMore<K(!new), V>(a: map<K, V>, b: map<K, V>, k: K)
    requires a.Keys !! b.Keys && k in b
    ensures k !in b - {k} && (b - {k})[k := b[k]] == b
    ensures k !in a + (b - {k}) && (a + (b - {k}))[k := b[k]] == a + b
  {
  }

  lemma {:induction false} BagUnion<K(!new), V>(a: map<K, V>, b: map<K, V>)
    requires a.Keys !! b.Keys
    ensures Bag(a + b) == Bag(a) + Bag(b)
    decreases b.Keys
  {
    if b == map[] {
      assert a + b == a;
      assert Bag(b) == multiset{};
    } else {
      var k :| k in b;
      var rest := b - {k};
      assert rest.Keys < b.Keys;
      BagUnion(a, rest);
      BagAddBoth(a, b, k);
    }
  }

  lemma BagAddBoth<K(!new), V>(a: map<K, V>, b: map<K, V>, k: K)
    requires a.Keys !! b.Keys && k in b && Bag(a + (b - {k})) == Bag(a) + Bag(b - {k})
    ensures Bag(a + b) == Bag(a) + Bag(b)
  {
    OneMore(a, b, k);
    BagAdd(b - {k}, k, b[k]);
    BagAdd(a + (b - {k}), k, b[k]);
    SumAssociates(Bag(a), Bag(b - {k}), multiset{b[k]});
  }

  /** The multisets of a map put together. */
  ghost function Merged<K(!new), V>(m: map<K, multiset<V>>): multiset<V>
    decreases m.Keys
  {
    if m == map[] then multiset{} else var k :| k in m; assert (m - {k}).Keys < m.Keys; m[k] + Merged(m - {k})
  }

  lemma MergedStep<K(!new), V>(m: map<K, multiset<V>>) returns (k: K)
    requires m != map[]
    ensures k in m && (m - {k}).Keys < m.Keys && Merged(m) == m[k] + Merged(m - {k})
  {
    k :| k in m && Merged(m) == m[k] + Merged(m - {k});
  }

  lemma {:induction false} MergedAt<K(!new), V>(m: map<K, multiset<V>>, k: K)
    requires k in m
    ensures Merged(m) == m[k] + Merged(m - {k})
    decreases m.Keys
  {
    hide Merged;
    var j := MergedStep(m);
    if j != k {
      assert (m - {k}).Keys < m.Keys;
      MergedAt(m - {j}, k);
      MergedAt(m - {k}, j);
      assert m - {j} - {k} == m - {k} - {j};
      SwapFirstTwo(m[j], m[k], Merged(m - {j} - {k}));
    }
  }

  lemma MergedMore<K(!new), V>(m: map<K, multiset<V>>, k: K, v: V)
    ensures Merged(m[k := (if k in m then m[k] else multiset{}) + multiset{v}]) == Merged(m) + multiset{v}
  {
    var more := m[k := (if k in m then m[k] else multiset{}) + multiset{v}];
    MergedAt(more, k);
    hide Merged;
    if k in m {
      MergedAt(m, k);
      assert more - {k} == m - {k};
      MoveLast(m[k], multiset{v}, Merged(m - {k}));
    } else {
      assert more - {k} == m;
    }
  }

  lemma MoveLast<V>(a: multiset<V>, b: multiset<V>, c: multiset<V>)
    ensures (a + b) + c == (a + c) + b
  {
  }
}
