/** Sums of a measure over the values of a finite map. */
module MapSums {

  ghost function Total<K, V>(m: map<K, V>, f: V -> int): int {
    if m == map[] then 0
    else
      var k :| k in m;
      f(m[k]) + Total(m - {k}, f)
  }

  /** Any key may be taken out first. */
  lemma {:induction false} TotalRemove<K, V>(m: map<K, V>, f: V -> int, k: K)
    requires k in m
    ensures Total(m, f) == f(m[k]) + Total(m - {k}, f)
    decreases |m|
  {
    var first :| first in m && Total(m, f) == f(m[first]) + Total(m - {first}, f);
    if first != k {
      assert |m - {first}| < |m| && |m - {k}| < |m| by {
        assert (m - {first}).Keys == m.Keys - {first};
        assert (m - {k}).Keys == m.Keys - {k};
      }
      TotalRemove(m - {first}, f, k);
      TotalRemove(m - {k}, f, first);
      assert m - {first} - {k} == m - {k} - {first};
    }
  }

  /** Writing one key replaces that key's share of the sum. */
  lemma TotalUpdate<K, V>(m: map<K, V>, f: V -> int, k: K, v: V)
    ensures Total(m[k := v], f) == Total(m, f) + f(v) - (if k in m then f(m[k]) else 0)
  {
    TotalRemove(m[k := v], f, k);
    assert m[k := v] - {k} == m - {k};
    if k in m {
      TotalRemove(m, f, k);
    } else {
      assert m - {k} == m;
    }
  }

  /** A measure that is never negative never sums to less than one of its terms. */
  lemma {:induction false} TotalAtLeast<K, V>(m: map<K, V>, f: V -> int, k: K)
    requires k in m
    requires forall x :: x in m ==> f(m[x]) >= 0
    ensures Total(m, f) >= f(m[k])
    decreases |m|
  {
    TotalRemove(m, f, k);
    var rest := m - {k};
    if rest != map[] {
      var x :| x in rest;
      assert rest.Keys == m.Keys - {k};
      TotalAtLeast(rest, f, x);
    }
  }

  /** A measure that vanishes everywhere sums to zero. */
  lemma {:induction false} TotalZero<K, V>(m: map<K, V>, f: V -> int)
    requires forall x :: x in m ==> f(m[x]) == 0
    ensures Total(m, f) == 0
    decreases |m|
  {
    if m != map[] {
      var k :| k in m;
      TotalRemove(m, f, k);
      assert (m - {k}).Keys == m.Keys - {k};
      TotalZero(m - {k}, f);
    }
  }

  lemma {:induction false} SubsetSmaller<T>(a: set<T>, b: set<T>)
    requires a <= b
    ensures |a| <= |b|
  {
    if a != {} {
      var x :| x in a;
      SubsetSmaller(a - {x}, b - {x});
    }
  }
}
