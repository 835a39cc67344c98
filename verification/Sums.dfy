/** Sums over finite maps, independent of the order in which the keys are taken. */
module Sums {

  ghost function Sum<K>(m: map<K, int>): int {
    if m == map[] then 0
    else
      var k :| k in m;
      m[k] + Sum(m - {k})
  }

  lemma {:induction false} SumWithout<K>(m: map<K, int>, k: K)
    requires k in m
    ensures Sum(m) == m[k] + Sum(m - {k})
    decreases |m|
  {
    var j :| j in m && Sum(m) == m[j] + Sum(m - {j});
    if j != k {
      SumWithout(m - {j}, k);
      SumWithout(m - {k}, j);
      assert m - {j} - {k} == m - {k} - {j};
    }
  }

  lemma SumUpdate<K>(m: map<K, int>, k: K, v: int)
    ensures Sum(m[k := v]) == Sum(m) + v - (if k in m then m[k] else 0)
  {
    SumWithout(m[k := v], k);
    if k in m {
      SumWithout(m, k);
      assert m[k := v] - {k} == m - {k};
    } else {
      assert m[k := v] - {k} == m;
    }
  }

  lemma {:induction false} SumRemoveZeros<K>(m: map<K, int>, gone: set<K>)
    requires forall k :: k in gone && k in m ==> m[k] == 0
    ensures Sum(m - gone) == Sum(m)
    decreases gone
  {
    if gone != {} {
      var k :| k in gone;
      SumRemoveZeros(m, gone - {k});
      var rest := m - (gone - {k});
      if k in rest {
        SumWithout(rest, k);
        assert rest - {k} == m - gone;
      } else {
        assert rest == m - gone;
      }
    } else {
      assert m - gone == m;
    }
  }

  lemma {:induction false} SumNonnegative<K>(m: map<K, int>)
    requires forall k :: k in m ==> m[k] >= 0
    ensures Sum(m) >= 0
    decreases |m|
  {
    if m != map[] {
      var k :| k in m && Sum(m) == m[k] + Sum(m - {k});
      SumNonnegative(m - {k});
    }
  }
}
