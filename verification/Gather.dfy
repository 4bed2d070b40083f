/** Counting occurrences across all the sequences held in a finite map. */
module Gather {

  /** How often `v` occurs in `s`. */
  ghost function Occ<V>(s: seq<V>, v: V): nat {
    if s == [] then 0 else (if s[0] == v then 1 else 0) + Occ(s[1..], v)
  }

  lemma {:induction false} OccConcat<V>(a: seq<V>, b: seq<V>, v: V)
    ensures Occ(a + b, v) == Occ(a, v) + Occ(b, v)
  {
    if a == [] {
      assert a + b == b;
    } else {
      assert (a + b)[1..] == a[1..] + b;
      OccConcat(a[1..], b, v);
    }
  }

  ghost function Pick<K, V>(m: map<K, V>): (k: K)
    requires |m| > 0
    ensures k in m
  {
    assert m.Keys != {};
    var k :| k in m.Keys; k
  }

  lemma Shrinks<K, V>(m: map<K, V>, k: K)
    requires k in m
    ensures |m - {k}| == |m| - 1
  {
    assert (m - {k}).Keys == m.Keys - {k};
  }

  /** How often `v` occurs in all the sequences of `m` together. */
  ghost function Total<K, V>(m: map<K, seq<V>>, v: V): nat
    decreases |m|
  {
    if |m| == 0 then 0 else
      var k := Pick(m);
      assert |m - {k}| < |m| by { Shrinks(m, k); }
      Occ(m[k], v) + Total(m - {k}, v)
  }

  /** Which entry is taken out first does not matter. */
  lemma {:induction false} Split<K, V>(m: map<K, seq<V>>, k: K, v: V)
    requires k in m
    ensures Total(m, v) == Occ(m[k], v) + Total(m - {k}, v)
    decreases |m|
  {
    Shrinks(m, k);
    var p := Pick(m);
    if p != k {
      Shrinks(m, p);
      Split(m - {p}, k, v);
      Split(m - {k}, p, v);
      assert m - {p} - {k} == m - {k} - {p};
    }
  }

  ghost function At<K, V>(m: map<K, seq<V>>, k: K): seq<V> {
    if k in m then m[k] else []
  }

  /** Replacing one entry changes the total by exactly that entry. */
  lemma Put<K, V>(m: map<K, seq<V>>, k: K, s: seq<V>, v: V)
    ensures Total(m[k := s], v) + Occ(At(m, k), v) == Total(m, v) + Occ(s, v)
  {
    var n := m[k := s];
    Take(n, k, v);
    Take(m, k, v);
    assert n - {k} == m - {k};
  }

  lemma Take<K, V>(m: map<K, seq<V>>, k: K, v: V)
    ensures Total(m - {k}, v) + Occ(At(m, k), v) == Total(m, v)
  {
    if k in m {
      Split(m, k, v);
    } else {
      assert m - {k} == m;
    }
  }

  ghost predicate Zipped<K, V>(m: map<K, seq<V>>, a: map<K, seq<V>>, b: map<K, seq<V>>, v: V) {
    && a.Keys <= m.Keys && b.Keys <= m.Keys
    && forall k :: k in m ==> Occ(m[k], v) == Occ(At(a, k), v) + Occ(At(b, k), v)
  }

  lemma StillZipped<K, V>(m: map<K, seq<V>>, a: map<K, seq<V>>, b: map<K, seq<V>>, k: K, v: V)
    requires Zipped(m, a, b, v)
    ensures Zipped(m - {k}, a - {k}, b - {k}, v)
  {
    forall j | j in m - {k} ensures Occ((m - {k})[j], v) == Occ(At(a - {k}, j), v) + Occ(At(b - {k}, j), v) {
      assert At(a - {k}, j) == At(a, j) && At(b - {k}, j) == At(b, j);
    }
  }

  /** Splitting every entry in two splits the total in two. */
  lemma {:induction false} Zip<K, V>(m: map<K, seq<V>>, a: map<K, seq<V>>, b: map<K, seq<V>>, v: V)
    requires Zipped(m, a, b, v)
    ensures Total(m, v) == Total(a, v) + Total(b, v)
    decreases |m|
  {
    if |m| == 0 {
      assert |a.Keys| == 0 && |b.Keys| == 0;
    } else {
      var k := Pick(m);
      Shrinks(m, k);
      StillZipped(m, a, b, k, v);
      Zip(m - {k}, a - {k}, b - {k}, v);
      Take(m, k, v);
      Take(a, k, v);
      Take(b, k, v);
      assert Occ(At(m, k), v) == Occ(At(a, k), v) + Occ(At(b, k), v);
    }
  }

  /** One sequence holding everything in `m`. */
  ghost function Flatten<K, V>(m: map<K, seq<V>>): seq<V>
    decreases |m|
  {
    if |m| == 0 then [] else
      var k := Pick(m);
      assert |m - {k}| < |m| by { Shrinks(m, k); }
      m[k] + Flatten(m - {k})
  }

  lemma {:induction false} FlattenOcc<K, V>(m: map<K, seq<V>>, v: V)
    ensures Occ(Flatten(m), v) == Total(m, v)
    decreases |m|
  {
    if |m| != 0 {
      var k := Pick(m);
      Shrinks(m, k);
      FlattenOcc(m - {k}, v);
      OccConcat(m[k], Flatten(m - {k}), v);
    }
  }
}
