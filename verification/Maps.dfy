/** Summing a measure over the entries of a finite map. */
module Maps {

  ghost function SumOver<K(!new), V>(m: map<K, V>, f: (K, V) -> real): real
    decreases |m|
  {
    if m == map[] then 0.0
    else
      var k :| k in m;
      f(k, m[k]) + SumOver(m - {k}, f)
  }

  /** The measure of one key, zero when it is absent. */
  ghost function At<K, V>(m: map<K, V>, k: K, f: (K, V) -> real): real {
    if k in m then f(k, m[k]) else 0.0
  }

  /** The sum does not depend on the order in which entries are taken. */
  lemma {:induction false} SumTake<K(!new), V>(m: map<K, V>, k: K, f: (K, V) -> real)
    requires k in m
    ensures SumOver(m, f) == f(k, m[k]) + SumOver(m - {k}, f)
    decreases |m|
  {
    var c :| c in m && SumOver(m, f) == f(c, m[c]) + SumOver(m - {c}, f);
    if c != k {
      SumTake(m - {c}, k, f);
      SumTake(m - {k}, c, f);
      assert m - {c} - {k} == m - {k} - {c};
    }
  }

  lemma SumUpdate<K(!new), V>(m: map<K, V>, k: K, v: V, f: (K, V) -> real)
    ensures SumOver(m[k := v], f) == SumOver(m, f) - At(m, k, f) + f(k, v)
  {
    SumTake(m[k := v], k, f);
    if k in m {
      SumTake(m, k, f);
      assert m[k := v] - {k} == m - {k};
    } else {
      assert m[k := v] - {k} == m;
    }
  }

  lemma {:induction false} SumAtLeast<K(!new), V>(m: map<K, V>, f: (K, V) -> real)
    requires forall k :: k in m ==> f(k, m[k]) >= 0.0
    ensures SumOver(m, f) >= 0.0
    ensures forall k :: k in m ==> f(k, m[k]) <= SumOver(m, f)
    decreases |m|
  {
    if m != map[] {
      var c :| c in m && SumOver(m, f) == f(c, m[c]) + SumOver(m - {c}, f);
      SumAtLeast(m - {c}, f);
      forall k | k in m ensures f(k, m[k]) <= SumOver(m, f) {
        if k != c {
          assert k in m - {c};
        }
      }
    }
  }
}
