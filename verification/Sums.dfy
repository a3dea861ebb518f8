/** Exact sums over finite maps, independent of the order in which entries are visited. */
module Sums {

  /** The sum of all values of `m`. */
  ghost function Sum<K>(m: map<K, nat>): nat
    decreases |m|
  {
    if m == map[] then 0
    else
      var k :| k in m;
      assert |m - {k}| < |m| by { CardMinus(m, k); }
      m[k] + Sum(m - {k})
  }

  lemma CardMinus<K, V>(m: map<K, V>, k: K)
    requires k in m
    ensures |m - {k}| == |m| - 1
  {
    assert (m - {k}).Keys == m.Keys - {k};
    assert |(m - {k}).Keys| == |m - {k}| && |m.Keys| == |m|;
  }

  /** Any entry may be taken out first. */
  lemma {:induction false} SumRemove<K>(m: map<K, nat>, k: K)
    requires k in m
    ensures Sum(m) == m[k] + Sum(m - {k})
    decreases |m|
  {
    var first :| first in m && Sum(m) == m[first] + Sum(m - {first});
    if first != k {
      CardMinus(m, first);
      CardMinus(m, k);
      SumRemove(m - {first}, k);
      SumRemove(m - {k}, first);
      assert m - {first} - {k} == m - {k} - {first};
    }
  }

  lemma SumInsert<K>(m: map<K, nat>, k: K, v: nat)
    requires k !in m
    ensures Sum(m[k := v]) == Sum(m) + v
  {
    SumRemove(m[k := v], k);
    assert m[k := v] - {k} == m;
  }

  lemma SumUpdate<K>(m: map<K, nat>, k: K, v: nat)
    ensures Sum(m[k := v]) == Sum(m) + v - (if k in m then m[k] else 0)
  {
    if k in m {
      SumRemove(m, k);
      SumInsert(m - {k}, k, v);
      assert (m - {k})[k := v] == m[k := v];
    } else {
      SumInsert(m, k, v);
    }
  }

  lemma ValueWithinSum<K>(m: map<K, nat>, k: K)
    requires k in m
    ensures m[k] <= Sum(m)
  {
    SumRemove(m, k);
  }

  lemma MergeMinus<K, V>(part: map<K, V>, rest: map<K, V>, k: K)
    requires k in part && k !in rest
    ensures (part + rest) - {k} == (part - {k}) + rest
  {
    var whole := part + rest;
    assert whole.Keys == part.Keys + rest.Keys;
    assert ((part - {k}) + rest).Keys == (whole - {k}).Keys;
  }

  /** A sum splits along any partition of the keys. */
  lemma {:induction false} SumSplit<K>(part: map<K, nat>, rest: map<K, nat>)
    requires part.Keys !! rest.Keys
    ensures Sum(part + rest) == Sum(part) + Sum(rest)
    decreases |part|
  {
    if part == map[] {
      assert part + rest == rest;
    } else {
      var k :| k in part;
      CardMinus(part, k);
      SumRemove(part + rest, k);
      SumRemove(part, k);
      MergeMinus(part, rest, k);
      SumSplit(part - {k}, rest);
    }
  }
}
