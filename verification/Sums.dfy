/** Sums over finite maps. */
module Sums {

  ghost function Sum<K>(m: map<K, int>): int
    decreases |m|
  {
    if m == map[] then 0
    else
      var k :| k in m;
      m[k] + Sum(m - {k})
  }

  /** Any key can be taken out first. */
  lemma {:induction false} SumWithout<K>(m: map<K, int>, k: K)
    requires k in m
    ensures Sum(m) == m[k] + Sum(m - {k})
    decreases |m|
  {
    var j :| j in m && Sum(m) == m[j] + Sum(m - {j});
    if j != k {
      SumWithout(m - {j}, k);
      SumWithout(m - {k}, j);
      assert (m - {j}) - {k} == (m - {k}) - {j};
    }
  }

  lemma SumUpdated<K>(m: map<K, int>, k: K, v: int)
    ensures Sum(m[k := v]) == Sum(m) - (if k in m then m[k] else 0) + v
  {
    SumWithout(m[k := v], k);
    assert m[k := v] - {k} == m - {k};
    if k in m {
      SumWithout(m, k);
    } else {
      assert m - {k} == m;
    }
  }

  lemma {:induction false} SumOfZeros<K>(m: map<K, int>)
    requires forall k :: k in m ==> m[k] == 0
    ensures Sum(m) == 0
    decreases |m|
  {
    if m != map[] {
      var k :| k in m && Sum(m) == m[k] + Sum(m - {k});
      SumOfZeros(m - {k});
    }
  }

  /** If only one key can be nonzero, the sum is its value. */
  lemma SumOfOne<K>(m: map<K, int>, k: K)
    requires forall j :: j in m && j != k ==> m[j] == 0
    ensures Sum(m) == if k in m then m[k] else 0
  {
    if k in m {
      SumWithout(m, k);
      SumOfZeros(m - {k});
    } else {
      SumOfZeros(m);
    }
  }

  /** If only one key can be negative, the sum is at least its value. */
  lemma SumAtLeast<K>(m: map<K, int>, k: K)
    requires forall j :: j in m && j != k ==> m[j] >= 0
    ensures Sum(m) >= if k in m then m[k] else 0
  {
    if k in m {
      SumWithout(m, k);
      SumNotNegative(m - {k});
    } else {
      SumNotNegative(m);
    }
  }

  lemma {:induction false} SumNotNegative<K>(m: map<K, int>)
    requires forall k :: k in m ==> m[k] >= 0
    ensures Sum(m) >= 0
    decreases |m|
  {
    if m != map[] {
      var k :| k in m && Sum(m) == m[k] + Sum(m - {k});
      SumNotNegative(m - {k});
    }
  }

  ghost function MinusOnes<K>(m: map<K, int>): set<K> {
    set k | k in m && m[k] == -1
  }

  /** Where every term is zero or minus one, the sum counts the latter. */
  lemma {:induction false} SumCounts<K>(m: map<K, int>)
    requires forall k :: k in m ==> m[k] == 0 || m[k] == -1
    ensures Sum(m) == 0 - |MinusOnes(m)|
    decreases |m|
  {
    if m == map[] {
      assert MinusOnes(m) == {};
    } else {
      var k :| k in m && Sum(m) == m[k] + Sum(m - {k});
      SumCounts(m - {k});
      assert MinusOnes(m) == if m[k] == -1 then MinusOnes(m - {k}) + {k} else MinusOnes(m - {k});
    }
  }
}
