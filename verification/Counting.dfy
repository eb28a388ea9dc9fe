/** Counting and adding up over the entries of a finite map. */
module Counting {

  ghost function Matching<K, V>(m: map<K, V>, p: (K, V) -> bool): set<K> {
    set k | k in m && p(k, m[k])
  }

  ghost function Count<K, V>(m: map<K, V>, p: (K, V) -> bool): nat {
    |Matching(m, p)|
  }

  ghost function One(b: bool): nat {
    if b then 1 else 0
  }

  lemma CountUpdate<K, V>(m: map<K, V>, k: K, v: V, p: (K, V) -> bool)
    ensures Count(m[k := v], p) == Count(m - {k}, p) + One(p(k, v))
  {
    var before, after := Matching(m - {k}, p), Matching(m[k := v], p);
    assert after == if p(k, v) then before + {k} else before;
  }

  lemma CountRemove<K, V>(m: map<K, V>, k: K, p: (K, V) -> bool)
    ensures Count(m - {k}, p) == Count(m, p) - One(k in m && p(k, m[k]))
    ensures k in m && p(k, m[k]) ==> Count(m, p) > 0
  {
    var before, after := Matching(m, p), Matching(m - {k}, p);
    assert after == if k in m && p(k, m[k]) then before - {k} else before;
  }

  lemma SubsetSize<T>(a: set<T>, b: set<T>)
    requires a <= b
    ensures |a| <= |b|
  {
    assert b == a + (b - a);
  }

  lemma MapSize<K, V>(m: map<K, V>, k: K, v: V)
    ensures |m[k := v]| == |m - {k}| + 1
    ensures |m - {k}| == |m| - One(k in m)
  {
    assert m[k := v].Keys == (m - {k}).Keys + {k};
    assert (m - {k}).Keys == m.Keys - {k};
  }

  lemma SubmapSize<K, V>(m: map<K, V>, n: map<K, V>)
    requires n.Keys <= m.Keys
    ensures |n| <= |m|
  {
    SubsetSize(n.Keys, m.Keys);
  }

  lemma UpdateKeys<K, V>(m: map<K, V>, k: K, v: V)
    ensures m[k := v].Keys == m.Keys + {k}
    ensures k in m ==> m[k := v].Keys == m.Keys
  {
  }

  lemma MinusAbsent<K, V>(m: map<K, V>, k: K)
    requires k !in m
    ensures m - {k} == m
  {
  }

  lemma InsertThenRemove<K, V>(m: map<K, V>, k: K, v: V)
    requires k !in m
    ensures m[k := v] - {k} == m
  {
  }

  lemma UpdateTwice<K, V>(m: map<K, V>, k: K, v: V, w: V)
    ensures m[k := v][k := w] == m[k := w]
  {
  }

  /** The weights of all entries added up. */
  ghost function Sum<K, V>(m: map<K, V>, w: V -> nat): nat
    decreases |m|
  {
    if m == map[] then 0
    else
      var k :| k in m;
      assert |m - {k}| < |m| by { MapSize(m, k, m[k]); }
      w(m[k]) + Sum(m - {k}, w)
  }

  lemma {:induction false} SumRemove<K, V>(m: map<K, V>, k: K, w: V -> nat)
    requires k in m
    ensures Sum(m, w) == w(m[k]) + Sum(m - {k}, w)
    decreases |m|
  {
    assert m != map[];
    var j :| j in m && Sum(m, w) == w(m[j]) + Sum(m - {j}, w);
    if j != k {
      MapSize(m, j, m[j]);
      MapSize(m, k, m[k]);
      SumRemove(m - {j}, k, w);
      SumRemove(m - {k}, j, w);
      assert m - {j} - {k} == m - {k} - {j};
    }
  }

  lemma SumInsert<K, V>(m: map<K, V>, k: K, v: V, w: V -> nat)
    requires k !in m
    ensures Sum(m[k := v], w) == w(v) + Sum(m, w)
  {
    SumRemove(m[k := v], k, w);
    InsertThenRemove(m, k, v);
  }

  /** The entries with the given keys. */
  function Part<K, V>(m: map<K, V>, keys: set<K>): map<K, V> {
    map k | k in m && k in keys :: m[k]
  }

  lemma {:induction false} SumSplit<K, V>(m: map<K, V>, keys: set<K>, w: V -> nat)
    ensures Sum(m, w) == Sum(Part(m, keys), w) + Sum(m - keys, w)
    decreases |m|
  {
    if m == map[] {
      assert Part(m, keys) == map[] && m - keys == map[];
    } else {
      var k :| k in m;
      var rest := m - {k};
      MapSize(m, k, m[k]);
      SumSplit(rest, keys, w);
      SumRemove(m, k, w);
      if k in keys {
        assert Part(m, keys) - {k} == Part(rest, keys) && m - keys == rest - keys;
        SumRemove(Part(m, keys), k, w);
      } else {
        assert Part(m, keys) == Part(rest, keys) && (m - keys) - {k} == rest - keys;
        SumRemove(m - keys, k, w);
      }
    }
  }
}
