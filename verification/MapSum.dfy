/** Sums over finite maps. */
module MapSum {

  ghost function Sum<K>(m: map<K, nat>): nat {
    if m == map[] then 0
    else
      var k :| k in m;
      m[k] + Sum(m - {k})
  }

  lemma {:induction false} SumRemove<K>(m: map<K, nat>, k: K)
    requires k in m
    ensures Sum(m) == m[k] + Sum(m - {k})
    decreases |m|
  {
    var j :| j in m && Sum(m) == m[j] + Sum(m - {j});
    if j != k {
      SumRemove(m - {j}, k);
      SumRemove(m - {k}, j);
      assert m - {j} - {k} == m - {k} - {j};
    }
  }

  lemma SumEmpty<K>()
    ensures Sum<K>(map[]) == 0
  {
  }

  lemma SumInsert<K>(m: map<K, nat>, k: K, n: nat)
    requires k !in m
    ensures Sum(m[k := n]) == Sum(m) + n
  {
    hide Sum;
    SumRemove(m[k := n], k);
    assert m[k := n] - {k} == m;
  }

  lemma RemoveLeft<K>(a: map<K, nat>, b: map<K, nat>, k: K)
    requires k in a && k !in b
    ensures (a + b) - {k} == (a - {k}) + b
    ensures (a + b)[k] == a[k] && |a - {k}| < |a|
  {
    var x, y := (a + b) - {k}, (a - {k}) + b;
    assert x.Keys == y.Keys;
    assert forall j <- x :: x[j] == y[j];
    assert (a - {k}).Keys == a.Keys - {k};
  }

  lemma {:induction false} SumDisjoint<K>(a: map<K, nat>, b: map<K, nat>)
    requires a.Keys !! b.Keys
    ensures Sum(a + b) == Sum(a) + Sum(b)
    decreases |a|
  {
    hide Sum;
    SumEmpty<K>();
    if a == map[] {
      assert a + b == b;
    } else {
      var k :| k in a;
      RemoveLeft(a, b, k);
      SumRemove(a, k);
      SumRemove(a + b, k);
      SumDisjoint(a - {k}, b);
    }
  }

  lemma {:induction false} SumBelow<K>(a: map<K, nat>, b: map<K, nat>)
    requires a.Keys <= b.Keys && forall k <- a :: a[k] <= b[k]
    ensures Sum(a) <= Sum(b)
    decreases |a|
  {
    hide Sum;
    SumEmpty<K>();
    if a != map[] {
      var k :| k in a;
      SumRemove(a, k);
      SumRemove(b, k);
      SumBelow(a - {k}, b - {k});
    }
  }
}
