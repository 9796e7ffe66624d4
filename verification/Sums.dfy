/** Finite sums of natural weights over sets, multisets and sequences. */
module Sums {

  ghost function SumSet<K(!new)>(f: K -> nat, ks: set<K>): nat {
    if ks == {} then 0 else
      var k :| k in ks;
      f(k) + SumSet(f, ks - {k})
  }

  lemma {:induction false} SumSetRemove<K(!new)>(f: K -> nat, ks: set<K>, k: K)
    requires k in ks
    ensures SumSet(f, ks) == f(k) + SumSet(f, ks - {k})
  {
    var p :| p in ks && SumSet(f, ks) == f(p) + SumSet(f, ks - {p});
    if p != k {
      SumSetRemove(f, ks - {p}, k);
      SumSetRemove(f, ks - {k}, p);
      assert ks - {p} - {k} == ks - {k} - {p};
    }
  }

  lemma {:induction false} SumSetCongruent<K(!new)>(f: K -> nat, g: K -> nat, ks: set<K>)
    requires forall k :: k in ks ==> f(k) == g(k)
    ensures SumSet(f, ks) == SumSet(g, ks)
  {
    if ks != {} {
      var p :| p in ks;
      SumSetRemove(f, ks, p);
      SumSetRemove(g, ks, p);
      SumSetCongruent(f, g, ks - {p});
    }
  }

  /** Changing the weight of one member. */
  lemma SumSetUpdate<K(!new)>(f: K -> nat, g: K -> nat, ks: set<K>, k: K)
    requires k in ks && forall j :: j in ks && j != k ==> f(j) == g(j)
    ensures SumSet(f, ks) + g(k) == SumSet(g, ks) + f(k)
  {
    SumSetRemove(f, ks, k);
    SumSetRemove(g, ks, k);
    SumSetCongruent(f, g, ks - {k});
  }

  /** Adding one member. */
  lemma SumSetAdd<K(!new)>(f: K -> nat, g: K -> nat, ks: set<K>, k: K)
    requires k !in ks && forall j :: j in ks ==> f(j) == g(j)
    ensures SumSet(g, ks + {k}) == SumSet(f, ks) + g(k)
  {
    SumSetRemove(g, ks + {k}, k);
    assert ks + {k} - {k} == ks;
    SumSetCongruent(f, g, ks);
  }

  ghost function SumBag<K(!new)>(f: K -> nat, m: multiset<K>): nat {
    if m == multiset{} then 0 else
      var k :| k in m;
      f(k) + SumBag(f, m - multiset{k})
  }

  lemma {:induction false} SumBagRemove<K(!new)>(f: K -> nat, m: multiset<K>, k: K)
    requires k in m
    ensures SumBag(f, m) == f(k) + SumBag(f, m - multiset{k})
  {
    var p :| p in m && SumBag(f, m) == f(p) + SumBag(f, m - multiset{p});
    if p != k {
      SumBagRemove(f, m - multiset{p}, k);
      SumBagRemove(f, m - multiset{k}, p);
      assert m - multiset{p} - multiset{k} == m - multiset{k} - multiset{p};
    }
  }

  lemma SumBagAdd<K(!new)>(f: K -> nat, m: multiset<K>, k: K)
    ensures SumBag(f, m + multiset{k}) == SumBag(f, m) + f(k)
  {
    SumBagRemove(f, m + multiset{k}, k);
    assert m + multiset{k} - multiset{k} == m;
  }

  ghost function SumSeq<K(!new)>(f: K -> nat, ks: seq<K>): nat {
    if ks == [] then 0 else SumSeq(f, ks[..|ks| - 1]) + f(ks[|ks| - 1])
  }

  lemma {:induction false} SumSeqConcat<K(!new)>(f: K -> nat, xs: seq<K>, ys: seq<K>)
    ensures SumSeq(f, xs + ys) == SumSeq(f, xs) + SumSeq(f, ys)
  {
    if ys == [] {
      assert xs + ys == xs;
    } else {
      assert (xs + ys)[..|xs + ys| - 1] == xs + ys[..|ys| - 1];
      SumSeqConcat(f, xs, ys[..|ys| - 1]);
    }
  }

  lemma SumSeqHead<K(!new)>(f: K -> nat, ks: seq<K>)
    requires ks != []
    ensures SumSeq(f, ks) == f(ks[0]) + SumSeq(f, ks[1..])
  {
    assert ks == [ks[0]] + ks[1..];
    SumSeqConcat(f, [ks[0]], ks[1..]);
    assert [ks[0]][..0] == [];
    assert SumSeq(f, [ks[0]]) == SumSeq(f, []) + f(ks[0]);
  }

  /** The total weight of a map's values. */
  ghost function SumMap<K(!new), V>(g: V -> nat, m: map<K, V>): nat {
    SumSet((k: K) => if k in m then g(m[k]) else 0, m.Keys)
  }

  lemma SumMapPut<K(!new), V>(g: V -> nat, m: map<K, V>, k: K, v: V)
    ensures SumMap(g, m[k := v]) + (if k in m then g(m[k]) else 0) == SumMap(g, m) + g(v)
  {
    var before := (j: K) => if j in m then g(m[j]) else 0;
    var after := (j: K) => if j in m[k := v] then g(m[k := v][j]) else 0;
    if k in m {
      assert m[k := v].Keys == m.Keys;
      SumSetUpdate(before, after, m.Keys, k);
    } else {
      assert m[k := v].Keys == m.Keys + {k};
      SumSetAdd(before, after, m.Keys, k);
    }
  }

  lemma SumMapDrop<K(!new), V>(g: V -> nat, m: map<K, V>, r: map<K, V>, k: K)
    requires k in m && r.Keys == m.Keys - {k} && forall j :: j in r ==> r[j] == m[j]
    ensures SumMap(g, m) == SumMap(g, r) + g(m[k])
  {
    assert r[k := m[k]] == m;
    SumMapPut(g, r, k, m[k]);
  }

  lemma SumMapHas<K(!new), V>(g: V -> nat, m: map<K, V>, k: K)
    requires k in m
    ensures SumMap(g, m) >= g(m[k])
  {
    SumSetRemove((j: K) => if j in m then g(m[j]) else 0, m.Keys, k);
  }
}
