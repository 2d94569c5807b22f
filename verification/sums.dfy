/** Sums of a weight over the values of a map: the reference definition
    against which the aggregate fields (`current_amount`, `total_raised`,
    `active_campaigns`) are checked. */
module Sums {

  /** The sum of `f` over every value of `m`. */
  ghost function SumOver<K, V>(m: map<K, V>, f: V -> nat): nat
    decreases m.Keys
  {
    if m.Keys == {} then 0
    else
      var k :| k in m.Keys;
      f(m[k]) + SumOver(m - {k}, f)
  }

  /** The sum does not depend on which key the definition picks first. */
  lemma {:induction false} SumOverRemove<K, V>(m: map<K, V>, k: K, f: V -> nat)
    requires k in m
    ensures SumOver(m, f) == f(m[k]) + SumOver(m - {k}, f)
    decreases m.Keys
  {
    var j :| j in m.Keys && SumOver(m, f) == f(m[j]) + SumOver(m - {j}, f);
    if j != k {
      var mj := m - {j};
      var mk := m - {k};
      assert k in mj;
      SumOverRemove(mj, k, f);
      assert mj - {k} == mk - {j};
      assert j in mk;
      SumOverRemove(mk, j, f);
    }
  }

  /** Adding a new key adds its weight. */
  lemma SumOverInsert<K, V>(m: map<K, V>, k: K, v: V, f: V -> nat)
    requires k !in m
    ensures SumOver(m[k := v], f) == SumOver(m, f) + f(v)
  {
    SumOverRemove(m[k := v], k, f);
    assert m[k := v] - {k} == m;
  }

  /** Replacing the value of an existing key replaces its weight. */
  lemma SumOverUpdate<K, V>(m: map<K, V>, k: K, v: V, f: V -> nat)
    requires k in m
    ensures SumOver(m[k := v], f) + f(m[k]) == SumOver(m, f) + f(v)
  {
    SumOverRemove(m[k := v], k, f);
    SumOverRemove(m, k, f);
    assert m[k := v] - {k} == m - {k};
  }

  /** A map whose every value weighs nothing sums to nothing. */
  lemma {:induction false} SumOverZero<K, V>(m: map<K, V>, f: V -> nat)
    requires forall k :: k in m ==> f(m[k]) == 0
    ensures SumOver(m, f) == 0
    decreases m.Keys
  {
    if m.Keys != {} {
      var k :| k in m.Keys && SumOver(m, f) == f(m[k]) + SumOver(m - {k}, f);
      SumOverZero(m - {k}, f);
    }
  }
}
