/** Dictionary lookups with a default, and the sum of a map's values. */
module Maps {

  /** The value stored under `k`, or `default` when nothing was ever stored
      there (a dictionary read followed by `unwrap_or_default`). */
  function Get<K, V>(m: map<K, V>, k: K, default: V): (v: V)
    ensures k in m ==> v == m[k]
    ensures k !in m ==> v == default
  {
    if k in m then m[k] else default
  }

  /** The sum of all values of `m`. */
  ghost function Sum<K>(m: map<K, nat>): nat
    decreases |m|
  {
    if m == map[] then 0
    else
      var k :| k in m;
      m[k] + Sum(m - {k})
  }

  /** The sum can be split at any key, not just the one `Sum` picks. */
  lemma {:induction false} SumRemove<K>(m: map<K, nat>, k: K)
    requires k in m
    ensures Sum(m) == m[k] + Sum(m - {k})
    decreases |m|
  {
    var j :| j in m && Sum(m) == m[j] + Sum(m - {j});
    if j != k {
      assert (m - {j}).Keys == m.Keys - {j};
      assert (m - {k}).Keys == m.Keys - {k};
      SumRemove(m - {j}, k);
      SumRemove(m - {k}, j);
      assert m - {j} - {k} == m - {k} - {j};
    }
  }

  /** Overwriting one entry changes the sum by the difference of the two values. */
  lemma {:induction false} SumUpdate<K>(m: map<K, nat>, k: K, v: nat)
    ensures Sum(m[k := v]) + Get(m, k, 0) == Sum(m) + v
  {
    SumRemove(m[k := v], k);
    if k in m {
      SumRemove(m, k);
      assert m[k := v] - {k} == m - {k};
    } else {
      assert m[k := v] - {k} == m;
    }
  }

  /** Two different entries together never exceed the sum. */
  lemma {:induction false} SumPair<K>(m: map<K, nat>, a: K, b: K)
    requires a != b
    ensures Get(m, a, 0) + Get(m, b, 0) <= Sum(m)
  {
    if a in m {
      SumRemove(m, a);
      if b in m - {a} {
        SumRemove(m - {a}, b);
      }
    } else if b in m {
      SumRemove(m, b);
    }
  }

  /** One entry never exceeds the sum. */
  lemma {:induction false} SumSingle<K>(m: map<K, nat>, a: K)
    ensures Get(m, a, 0) <= Sum(m)
  {
    if a in m {
      SumRemove(m, a);
    }
  }
}
