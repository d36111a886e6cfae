/** Totals over finite maps. */
module Sums {

  ghost function Total<K(!new)>(m: map<K, nat>): nat
  {
    if m == map[] then 0
    else
      var k :| k in m;
      m[k] + Total(m - {k})
  }

  /** The total does not depend on which key is taken out first. */
  lemma {:induction false} TotalTakeOut<K(!new)>(m: map<K, nat>, k: K)
    requires k in m
    ensures Total(m) == m[k] + Total(m - {k})
    decreases |m|
  {
    var c :| c in m && Total(m) == m[c] + Total(m - {c});
    if c != k {
      TotalTakeOut(m - {c}, k);
      assert (m - {c}) - {k} == (m - {k}) - {c};
      TotalTakeOut(m - {k}, c);
    }
  }

  lemma TotalPut<K(!new)>(m: map<K, nat>, k: K, v: nat)
    ensures Total(m[k := v]) == v + Total(m - {k})
  {
    TotalTakeOut(m[k := v], k);
    assert m[k := v] - {k} == m - {k};
  }

  lemma {:induction false} TotalMonotone<K(!new)>(m: map<K, nat>, keys: set<K>)
    ensures Total(m - keys) <= Total(m)
    decreases |m|
  {
    if m.Keys * keys == {} {
      assert m - keys == m;
    } else {
      var k :| k in m.Keys * keys;
      TotalTakeOut(m, k);
      assert (m - {k}) - keys == m - keys;
      TotalMonotone(m - {k}, keys);
    }
  }

  lemma {:induction false} TotalDominates<K(!new)>(a: map<K, nat>, b: map<K, nat>)
    requires a.Keys == b.Keys
    requires forall k :: k in a ==> a[k] <= b[k]
    ensures Total(a) <= Total(b)
    decreases |a|
  {
    if a != map[] {
      var k :| k in a;
      TotalTakeOut(a, k);
      TotalTakeOut(b, k);
      TotalDominates(a - {k}, b - {k});
    }
  }

  ghost function Affine<K(!new)>(m: map<K, nat>, scale: nat, offset: nat): map<K, nat> {
    map k | k in m :: Line(m[k], scale, offset)
  }

  function Line(x: nat, scale: nat, offset: nat): nat {
    scale * x + offset
  }

  lemma LineAdds(x: nat, y: nat, n: nat, scale: nat, offset: nat)
    ensures Line(x, scale, offset) + (scale * y + offset * n) == scale * (x + y) + offset * (n + 1)
  {
  }

  lemma SizeWithout<K, V>(m: map<K, V>, k: K)
    requires k in m
    ensures |m| == |m - {k}| + 1
  {
    assert (m - {k}).Keys == m.Keys - {k};
    assert |(m - {k}).Keys| == |m.Keys| - 1;
  }

  lemma {:induction false} TotalAffine<K(!new)>(m: map<K, nat>, scale: nat, offset: nat)
    ensures Total(Affine(m, scale, offset)) == scale * Total(m) + offset * |m|
    decreases |m|
  {
    if m == map[] {
      assert Affine(m, scale, offset) == map[];
    } else {
      var k :| k in m;
      TotalAffine(m - {k}, scale, offset);
      AffineTakeOut(m, k, scale, offset);
      TotalTakeOut(m, k);
      SizeWithout(m, k);
      LineAdds(m[k], Total(m - {k}), |m - {k}|, scale, offset);
    }
  }

  lemma AffineWithout<K(!new)>(m: map<K, nat>, k: K, scale: nat, offset: nat)
    ensures Affine(m, scale, offset) - {k} == Affine(m - {k}, scale, offset)
  {
  }

  lemma AffineTakeOut<K(!new)>(m: map<K, nat>, k: K, scale: nat, offset: nat)
    requires k in m
    ensures Total(Affine(m, scale, offset)) == Line(m[k], scale, offset) + Total(Affine(m - {k}, scale, offset))
  {
    AffineWithout(m, k, scale, offset);
    TotalTakeOut(Affine(m, scale, offset), k);
  }
}
