/** Column sums of tables: the simple quantities that the contracts' running totals stand for. */
module Sums {

  ghost function Sum<K(!new)>(m: map<K, int>): int {
    if m == map[] then 0 else var k :| k in m; m[k] + Sum(m - {k})
  }

  ghost function Total<K(!new)>(m: map<K, real>): real {
    if m == map[] then 0.0 else var k :| k in m; m[k] + Total(m - {k})
  }

  function Entry<K(==)>(m: map<K, int>, k: K): int {
    if k in m then m[k] else 0
  }

  function EntryReal<K(==)>(m: map<K, real>, k: K): real {
    if k in m then m[k] else 0.0
  }

  lemma {:induction false} SumTake<K(!new)>(m: map<K, int>, k: K)
    requires k in m
    ensures Sum(m) == m[k] + Sum(m - {k})
  {
    var j :| j in m && Sum(m) == m[j] + Sum(m - {j});
    if j != k {
      SumTake(m - {j}, k);
      SumTake(m - {k}, j);
      assert m - {j} - {k} == m - {k} - {j};
    }
  }

  lemma {:induction false} TotalTake<K(!new)>(m: map<K, real>, k: K)
    requires k in m
    ensures Total(m) == m[k] + Total(m - {k})
  {
    var j :| j in m && Total(m) == m[j] + Total(m - {j});
    if j != k {
      TotalTake(m - {j}, k);
      TotalTake(m - {k}, j);
      assert m - {j} - {k} == m - {k} - {j};
    }
  }

  /** Writing one entry moves the sum by what the entry changed. */
  lemma SumWrite<K(!new)>(m: map<K, int>, k: K, x: int)
    ensures Sum(m[k := x]) == Sum(m) - Entry(m, k) + x
  {
    SumTake(m[k := x], k);
    assert m[k := x] - {k} == m - {k};
    if k in m {
      SumTake(m, k);
    } else {
      assert m - {k} == m;
    }
  }

  lemma TotalWrite<K(!new)>(m: map<K, real>, k: K, x: real)
    ensures Total(m[k := x]) == Total(m) - EntryReal(m, k) + x
  {
    TotalTake(m[k := x], k);
    assert m[k := x] - {k} == m - {k};
    if k in m {
      TotalTake(m, k);
    } else {
      assert m - {k} == m;
    }
  }

  lemma SumErase<K(!new)>(m: map<K, int>, k: K)
    ensures Sum(m - {k}) == Sum(m) - Entry(m, k)
  {
    if k in m {
      SumTake(m, k);
    } else {
      assert m - {k} == m;
    }
  }

  lemma {:induction false} SumNonNegative<K(!new)>(m: map<K, int>)
    requires forall k :: k in m ==> m[k] >= 0
    ensures Sum(m) >= 0
    ensures forall k :: k in m ==> m[k] <= Sum(m)
  {
    if m != map[] {
      var j :| j in m && Sum(m) == m[j] + Sum(m - {j});
      SumNonNegative(m - {j});
      forall k | k in m ensures m[k] <= Sum(m) {
        if k != j {
          assert k in m - {j};
        }
      }
    }
  }

  lemma {:induction false} TotalNonNegative<K(!new)>(m: map<K, real>)
    requires forall k :: k in m ==> m[k] >= 0.0
    ensures Total(m) >= 0.0
    ensures forall k :: k in m ==> m[k] <= Total(m)
  {
    if m != map[] {
      var j :| j in m && Total(m) == m[j] + Total(m - {j});
      TotalNonNegative(m - {j});
      forall k | k in m ensures m[k] <= Total(m) {
        if k != j {
          assert k in m - {j};
        }
      }
    }
  }

  lemma {:induction false} SumOfZeros<K(!new)>(m: map<K, int>)
    requires forall k :: k in m ==> m[k] == 0
    ensures Sum(m) == 0
  {
    if m != map[] {
      var j :| j in m && Sum(m) == m[j] + Sum(m - {j});
      SumOfZeros(m - {j});
    }
  }

  lemma {:induction false} TotalOfZeros<K(!new)>(m: map<K, real>)
    requires forall k :: k in m ==> m[k] == 0.0
    ensures Total(m) == 0.0
  {
    if m != map[] {
      var j :| j in m && Total(m) == m[j] + Total(m - {j});
      TotalOfZeros(m - {j});
    }
  }
}
