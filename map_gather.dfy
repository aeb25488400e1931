/**
 * Order-independent folds over the entries of a map. A loop over a hash map's
 * entries visits them in an order the program does not control; what such a
 * loop collects is described here as a multiset (Gather) or a sum (Total),
 * and the Pick lemmas show that either one may be computed by taking out ANY
 * entry first, which is what makes them the content of every visiting order.
 * The context argument `c` lets a named function depend on data outside the
 * map (the URL of the data source owning a map of SQL statistics).
 */
module MapGather {

  /** The multiset union, over the entries k := v of m, of f(c, k, v). */
  ghost function Gather<C, K, V, R>(c: C, m: map<K, V>, f: (C, K, V) -> multiset<R>): multiset<R>
    decreases |m|
  {
    if m == map[] then multiset{}
    else
      var k :| k in m;
      assert |m - {k}| < |m| by { RemoveShrinks(m, k); }
      f(c, k, m[k]) + Gather(c, m - {k}, f)
  }

  /** The sum, over the entries k := v of m, of g(c, k, v). */
  ghost function Total<C, K, V>(c: C, m: map<K, V>, g: (C, K, V) -> nat): nat
    decreases |m|
  {
    if m == map[] then 0
    else
      var k :| k in m;
      assert |m - {k}| < |m| by { RemoveShrinks(m, k); }
      g(c, k, m[k]) + Total(c, m - {k}, g)
  }

  lemma RemoveShrinks<K, V>(m: map<K, V>, k: K)
    requires k in m
    ensures |m - {k}| == |m| - 1
  {
    assert (m - {k}).Keys == m.Keys - {k};
  }

  /** Any entry may be taken out first. */
  lemma {:induction false} GatherPick<C, K, V, R>(c: C, m: map<K, V>, f: (C, K, V) -> multiset<R>, k: K)
    requires k in m
    ensures Gather(c, m, f) == f(c, k, m[k]) + Gather(c, m - {k}, f)
    decreases |m|
  {
    var j :| j in m && Gather(c, m, f) == f(c, j, m[j]) + Gather(c, m - {j}, f);
    if j != k {
      RemoveShrinks(m, j);
      RemoveShrinks(m, k);
      GatherPick(c, m - {j}, f, k);
      GatherPick(c, m - {k}, f, j);
      assert m - {j} - {k} == m - {k} - {j};
    }
  }

  /** Any entry may be taken out first. */
  lemma {:induction false} TotalPick<C, K, V>(c: C, m: map<K, V>, g: (C, K, V) -> nat, k: K)
    requires k in m
    ensures Total(c, m, g) == g(c, k, m[k]) + Total(c, m - {k}, g)
    decreases |m|
  {
    var j :| j in m && Total(c, m, g) == g(c, j, m[j]) + Total(c, m - {j}, g);
    if j != k {
      RemoveShrinks(m, j);
      RemoveShrinks(m, k);
      TotalPick(c, m - {j}, g, k);
      TotalPick(c, m - {k}, g, j);
      assert m - {j} - {k} == m - {k} - {j};
    }
  }

  /** An element is gathered exactly when some entry contributes it. */
  lemma {:induction false} GatherHas<C, K, V, R>(c: C, m: map<K, V>, f: (C, K, V) -> multiset<R>, r: R)
    ensures r in Gather(c, m, f) <==> exists k :: k in m && r in f(c, k, m[k])
    decreases |m|
  {
    if m != map[] {
      var k :| k in m;
      GatherPick(c, m, f, k);
      RemoveShrinks(m, k);
      GatherHas(c, m - {k}, f, r);
      if r in Gather(c, m - {k}, f) {
        var j :| j in m - {k} && r in f(c, j, (m - {k})[j]);
        assert j in m && r in f(c, j, m[j]);
      }
      if exists j :: j in m && r in f(c, j, m[j]) {
        var j :| j in m && r in f(c, j, m[j]);
        if j != k {
          assert j in m - {k} && r in f(c, j, (m - {k})[j]);
        }
      }
    }
  }

  /** The size of what is gathered is the sum of the sizes of the contributions. */
  lemma {:induction false} GatherSize<C, K, V, R>(c: C, m: map<K, V>, f: (C, K, V) -> multiset<R>, g: (C, K, V) -> nat)
    requires forall k | k in m :: |f(c, k, m[k])| == g(c, k, m[k])
    ensures |Gather(c, m, f)| == Total(c, m, g)
    decreases |m|
  {
    if m != map[] {
      var k :| k in m;
      GatherPick(c, m, f, k);
      TotalPick(c, m, g, k);
      RemoveShrinks(m, k);
      GatherSize(c, m - {k}, f, g);
    }
  }

  /** When every entry contributes exactly one element, one element is gathered per entry. */
  lemma {:induction false} GatherSingletons<C, K, V, R>(c: C, m: map<K, V>, f: (C, K, V) -> multiset<R>)
    requires forall k | k in m :: |f(c, k, m[k])| == 1
    ensures |Gather(c, m, f)| == |m|
    decreases |m|
  {
    if m != map[] {
      var k :| k in m;
      GatherPick(c, m, f, k);
      RemoveShrinks(m, k);
      GatherSingletons(c, m - {k}, f);
    }
  }
}
