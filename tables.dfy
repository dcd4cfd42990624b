/**
 * Two-level maps (Go's map[string]map[string]*T), which the coverage engine
 * and the parameter checker both use, and the count of their entries.
 */
module Tables {

  /** The (outer key, inner key) pairs of a two-level map. */
  ghost function Pairs<K1, K2, V>(m: map<K1, map<K2, V>>): set<(K1, K2)>
  {
    set k1, k2 | k1 in m && k2 in m[k1] :: (k1, k2)
  }

  /** The pairs whose outer key lies in keys. */
  ghost function PairsOver<K1, K2, V>(m: map<K1, map<K2, V>>, keys: set<K1>): set<(K1, K2)>
  {
    set k1, k2 | k1 in keys && k1 in m && k2 in m[k1] :: (k1, k2)
  }

  lemma {:induction false} RowCard<K1, K2>(k1: K1, s: set<K2>)
    ensures |(set k2 | k2 in s :: (k1, k2))| == |s|
    decreases |s|
  {
    if s != {} {
      var k2 :| k2 in s;
      RowCard(k1, s - {k2});
      assert (set x | x in s :: (k1, x)) == (set x | x in s - {k2} :: (k1, x)) + {(k1, k2)};
    }
  }

  /** Adding one outer key adds exactly as many pairs as its inner map has entries. */
  lemma PairsOverAdd<K1, K2, V>(m: map<K1, map<K2, V>>, keys: set<K1>, k: K1)
    requires k in m && k !in keys
    ensures |PairsOver(m, keys + {k})| == |PairsOver(m, keys)| + |m[k]|
  {
    var row := set k2 | k2 in m[k].Keys :: (k, k2);
    RowCard(k, m[k].Keys);
    assert PairsOver(m, keys + {k}) == PairsOver(m, keys) + row;
    assert PairsOver(m, keys) !! row;
  }

  lemma PairsOverAll<K1, K2, V>(m: map<K1, map<K2, V>>)
    ensures PairsOver(m, m.Keys) == Pairs(m)
  {
  }

  /** The pairs of one outer key with each of the inner keys ks. */
  ghost function Row<K1, K2>(k1: K1, ks: set<K2>): set<(K1, K2)>
  {
    set k2 | k2 in ks :: (k1, k2)
  }

  /** Adding one outer key adds its row of pairs. */
  lemma PairsOverRow<K1, K2, V>(m: map<K1, map<K2, V>>, keys: set<K1>, k: K1)
    requires k in m
    ensures PairsOver(m, keys + {k}) == PairsOver(m, keys) + Row(k, m[k].Keys)
  {
  }

  /** One more inner key handled: the handled row grows by that key's pair. */
  lemma RowStep<K1, K2>(done: set<(K1, K2)>, k1: K1, ks: set<K2>, pending: set<K2>, k2: K2)
    requires k2 in pending && pending <= ks
    ensures done + Row(k1, ks - pending) + {(k1, k2)} == done + Row(k1, ks - (pending - {k2}))
  {
    assert ks - (pending - {k2}) == (ks - pending) + {k2};
  }

  /** One more outer key handled: the handled pairs grow by that key's row. */
  lemma PairsOverStep<K1, K2, V>(m: map<K1, map<K2, V>>, pending: set<K1>, k: K1)
    requires k in pending && pending <= m.Keys
    ensures PairsOver(m, m.Keys - pending) + Row(k, m[k].Keys) == PairsOver(m, m.Keys - (pending - {k}))
  {
    assert m.Keys - (pending - {k}) == (m.Keys - pending) + {k};
    PairsOverRow(m, m.Keys - pending, k);
  }

  /** Nothing pending: everything is handled. */
  lemma NonePending<K>(ks: set<K>, pending: set<K>)
    requires pending == {}
    ensures ks - pending == ks
  {
  }
}
