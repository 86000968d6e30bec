// SQL tables with a primary key are maps; an SQL SUM over such a table is a
// fold over the map. These lemmas say how a SUM reacts to INSERT, UPDATE and DELETE.
module Tables {

  /** SELECT SUM(f(row)) FROM m. */
  ghost function Total<K, V>(m: map<K, V>, f: V -> int): int
    decreases |m|
  {
    if m == map[] then 0
    else
      var k :| k in m;
      f(m[k]) + Total(m - {k}, f)
  }

  lemma {:induction false} TotalRemove<K, V>(m: map<K, V>, k: K, f: V -> int)
    requires k in m
    ensures Total(m, f) == f(m[k]) + Total(m - {k}, f)
    decreases |m|
  {
    var j :| j in m && Total(m, f) == f(m[j]) + Total(m - {j}, f);
    if j != k {
      TotalRemove(m - {j}, k, f);
      TotalRemove(m - {k}, j, f);
      assert m - {j} - {k} == m - {k} - {j};
    }
  }

  lemma TotalInsert<K, V>(m: map<K, V>, k: K, v: V, f: V -> int)
    requires k !in m
    ensures Total(m[k := v], f) == Total(m, f) + f(v)
  {
    TotalRemove(m[k := v], k, f);
    assert m[k := v] - {k} == m;
  }

  lemma TotalUpdate<K, V>(m: map<K, V>, k: K, v: V, f: V -> int)
    requires k in m
    ensures Total(m[k := v], f) == Total(m, f) - f(m[k]) + f(v)
  {
    TotalRemove(m, k, f);
    TotalRemove(m[k := v], k, f);
    assert m[k := v] - {k} == m - {k};
  }

  lemma {:induction false} TotalDelete<K, V>(m: map<K, V>, gone: set<K>, f: V -> int)
    requires forall k :: k in m ==> 0 <= f(m[k])
    ensures Total(m - gone, f) <= Total(m, f)
    decreases |m|
  {
    if k :| k in m && k in gone {
      TotalRemove(m, k, f);
      assert m - gone == m - {k} - gone;
      TotalDelete(m - {k}, gone, f);
    } else {
      assert m - gone == m;
    }
  }

  lemma {:induction false} TotalPointwise<K, V>(a: map<K, V>, b: map<K, V>, f: V -> int)
    requires a.Keys == b.Keys && forall k :: k in a ==> f(a[k]) == f(b[k])
    ensures Total(a, f) == Total(b, f)
    decreases |a|
  {
    if k :| k in a {
      TotalRemove(a, k, f);
      TotalRemove(b, k, f);
      assert (a - {k}).Keys == (b - {k}).Keys;
      TotalPointwise(a - {k}, b - {k}, f);
    } else {
      assert b == map[];
    }
  }

  lemma {:induction false} TotalBounded<K, V>(m: map<K, V>, f: V -> int, bound: nat)
    requires forall k :: k in m ==> f(m[k]) <= bound
    ensures Total(m, f) <= |m| * bound
    decreases |m|
  {
    if k :| k in m {
      var rest := m - {k};
      assert m == rest[k := m[k]];
      TotalRemove(m, k, f);
      TotalBounded(rest, f, bound);
      assert (|rest| + 1) * bound == |rest| * bound + bound;
    }
  }
}
