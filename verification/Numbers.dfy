/** Machine-integer bounds and the finite sums used by the accounting proofs. */
module Numbers {
  const MAX_INT64: int := 0x7FFF_FFFF_FFFF_FFFF
  const MAX_UINT64: int := 0xFFFF_FFFF_FFFF_FFFF
  const UNITS_PER_CHIP: int := 500_000

  newtype int64 = x: int | -0x8000_0000_0000_0000 <= x <= 0x7FFF_FFFF_FFFF_FFFF
  newtype uint64 = x: int | 0 <= x <= 0xFFFF_FFFF_FFFF_FFFF

  function Min(a: int, b: int): int {
    if a <= b then a else b
  }

  function Max(a: int, b: int): int {
    if a >= b then a else b
  }

  /** The sum of `f` over all values of `m`. */
  ghost function SumOf<K, V>(m: map<K, V>, f: V -> int): int {
    if m == map[] then 0
    else
      var k :| k in m;
      f(m[k]) + SumOf(m - {k}, f)
  }

  /** The order in which entries are summed does not matter. */
  lemma {:induction false} SumOfRemove<K, V>(m: map<K, V>, f: V -> int, k: K)
    requires k in m
    ensures SumOf(m, f) == f(m[k]) + SumOf(m - {k}, f)
    decreases |m|
  {
    var j :| j in m && SumOf(m, f) == f(m[j]) + SumOf(m - {j}, f);
    if j != k {
      assert |m - {j}| < |m| && |m - {k}| < |m| by {
        assert (m - {j}).Keys == m.Keys - {j};
        assert (m - {k}).Keys == m.Keys - {k};
      }
      SumOfRemove(m - {j}, f, k);
      SumOfRemove(m - {k}, f, j);
      assert m - {j} - {k} == m - {k} - {j};
    }
  }

  /** Writing one entry changes the sum by the difference of that entry alone. */
  lemma SumOfUpdate<K, V>(m: map<K, V>, f: V -> int, k: K, v: V)
    ensures SumOf(m[k := v], f) == SumOf(m, f) + f(v) - (if k in m then f(m[k]) else 0)
  {
    var n := m[k := v];
    SumOfRemove(n, f, k);
    if k in m {
      SumOfRemove(m, f, k);
      assert n - {k} == m - {k};
    } else {
      assert n - {k} == m;
    }
  }

  /** A sum of non-negative terms is at least any one of them. */
  lemma {:induction false} SumOfAtLeast<K, V>(m: map<K, V>, f: V -> int)
    requires forall k :: k in m ==> f(m[k]) >= 0
    ensures SumOf(m, f) >= 0
    ensures forall k :: k in m ==> SumOf(m, f) >= f(m[k])
    decreases |m|
  {
    if m != map[] {
      var j :| j in m && SumOf(m, f) == f(m[j]) + SumOf(m - {j}, f);
      assert (m - {j}).Keys == m.Keys - {j};
      SumOfAtLeast(m - {j}, f);
      forall k | k in m ensures SumOf(m, f) >= f(m[k]) {
        if k != j { assert k in m - {j} && (m - {j})[k] == m[k]; }
      }
    }
  }
}
