/** Small shared vocabulary: optional values, results, identifiers and sums over finite maps. */
module Base {

  /** Volume ids, archive names and accounting keys share one name space (the `pvname` column). */
  type Id = string

  datatype Option<+T> = None | Some(value: T)

  /** Every exception the modelled code raises to its caller is one `Failure`. */
  datatype Result<+T> = Success(value: T) | Failure

  /** The total of a finite map's values. */
  ghost function Sum<K>(m: map<K, int>): int
  {
    if m == map[] then 0 else
      var k :| k in m;
      m[k] + Sum(m - {k})
  }

  lemma {:induction false} SumRemove<K>(m: map<K, int>, k: K)
    requires k in m
    ensures Sum(m) == m[k] + Sum(m - {k})
    decreases |m|
  {
    var j :| j in m && Sum(m) == m[j] + Sum(m - {j});
    if j != k {
      SumRemove(m - {j}, k);
      SumRemove(m - {k}, j);
      assert m - {j} - {k} == m - {k} - {j};
    }
  }

  lemma SumInsert<K>(m: map<K, int>, k: K, v: int)
    requires k !in m
    ensures Sum(m[k := v]) == Sum(m) + v
  {
    SumRemove(m[k := v], k);
    assert m[k := v] - {k} == m;
  }

  lemma SumReplace<K>(m: map<K, int>, k: K, v: int)
    requires k in m
    ensures Sum(m[k := v]) == Sum(m) - m[k] + v
  {
    SumRemove(m, k);
    SumRemove(m[k := v], k);
    assert m[k := v] - {k} == m - {k};
  }

  /** Moving a value to an unused key keeps the total. */
  lemma SumRekey<K>(m: map<K, int>, k: K, j: K)
    requires k in m && j !in m
    ensures Sum((m - {k})[j := m[k]]) == Sum(m)
  {
    SumRemove(m, k);
    SumInsert(m - {k}, j, m[k]);
  }

  lemma {:induction false} SumNonNegative<K>(m: map<K, int>)
    requires forall k :: k in m ==> 0 <= m[k]
    ensures 0 <= Sum(m)
    decreases |m|
  {
    if m != map[] {
      var k :| k in m;
      SumRemove(m, k);
      SumNonNegative(m - {k});
    }
  }

  /** A map of non-negative values that is charged at least as much key by key totals at least as much. */
  lemma {:induction false} SumCovers<K>(small: map<K, int>, big: map<K, int>)
    requires forall k :: k in big ==> 0 <= big[k]
    requires forall k :: k in small ==> k in big && small[k] <= big[k]
    ensures Sum(small) <= Sum(big)
    decreases |small|
  {
    if small == map[] {
      SumNonNegative(big);
    } else {
      var k :| k in small;
      SumRemove(small, k);
      SumRemove(big, k);
      SumCovers(small - {k}, big - {k});
    }
  }

  /** The same along an injective renaming of keys. */
  lemma {:induction false} SumCoversAlong<J, K>(small: map<J, int>, big: map<K, int>, at: map<J, K>)
    requires forall k :: k in big ==> 0 <= big[k]
    requires forall j :: j in small ==> j in at && at[j] in big && small[j] <= big[at[j]]
    requires forall i, j :: i in small && j in small && i in at && j in at && at[i] == at[j] ==> i == j
    ensures Sum(small) <= Sum(big)
    decreases |small|
  {
    if small == map[] {
      SumNonNegative(big);
    } else {
      var j :| j in small;
      SumRemove(small, j);
      SumRemove(big, at[j]);
      SumCoversAlong(small - {j}, big - {at[j]}, at);
    }
  }
}
