/** Exact sums of real numbers over finite maps. */
module Sums {

  /** A non-empty set has an element (the fact every `:|` choice below rests on). */
  lemma HasElement(s: set<int>)
    requires s != {}
    ensures exists x :: x in s
  {
    if forall x :: x !in s { }
  }

  /** The sum of all values of `w`; the order of summation does not matter
      (TotalRemove). */
  ghost function Total(w: map<int, real>): real
    decreases w.Keys
  {
    if w.Keys == {} then 0.0
    else
      HasElement(w.Keys);
      var k :| k in w.Keys;
      w[k] + Total(w - {k})
  }

  /** Any key can be summed first. */
  lemma {:induction false} TotalRemove(w: map<int, real>, k: int)
    requires k in w
    ensures Total(w) == w[k] + Total(w - {k})
    decreases w.Keys
  {
    var j :| j in w && Total(w) == w[j] + Total(w - {j});
    if j != k {
      TotalRemove(w - {j}, k);
      TotalRemove(w - {k}, j);
      assert (w - {j}) - {k} == (w - {k}) - {j};
    }
  }

  /** Adding a fresh key adds its value to the sum. */
  lemma TotalInsert(w: map<int, real>, k: int, v: real)
    requires k !in w
    ensures Total(w[k := v]) == Total(w) + v
  {
    TotalRemove(w[k := v], k);
    assert w[k := v] - {k} == w;
  }

  /** A value weighted by a weight. */
  function Product(weight: real, value: real): real
  {
    weight * value
  }

  /** Each value of `w` multiplied by the value of `r` under the same key. */
  function Weighted(w: map<int, real>, r: map<int, real>): (x: map<int, real>)
    requires w.Keys <= r.Keys
    ensures x.Keys == w.Keys
  {
    map k | k in w :: Product(w[k], r[k])
  }

  /** Removing a key before or after weighting gives the same map. */
  lemma WeightedRemove(w: map<int, real>, r: map<int, real>, k: int)
    requires w.Keys <= r.Keys
    ensures Weighted(w, r) - {k} == Weighted(w - {k}, r)
  {
    var lhs, rhs := Weighted(w, r) - {k}, Weighted(w - {k}, r);
    assert lhs.Keys == rhs.Keys;
    forall j | j in lhs ensures lhs[j] == rhs[j] {
      assert (w - {k})[j] == w[j];
    }
  }

  /** Weighting one more entry adds its product to the weighted total. */
  lemma WeightedInsert(w: map<int, real>, r: map<int, real>, k: int, v: real)
    requires w.Keys <= r.Keys && k in r && k !in w
    ensures Total(Weighted(w[k := v], r)) == Total(Weighted(w, r)) + Product(v, r[k])
  {
    var wk := w[k := v];
    assert wk - {k} == w;
    var x := Weighted(wk, r);
    assert x[k] == Product(v, r[k]);
    WeightedRemove(wk, r, k);
    assert x - {k} == Weighted(w, r);
    TotalRemove(x, k);
  }
}
