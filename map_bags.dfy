/**
 * The values of a map counted with multiplicity. Ranging over a Go map visits
 * every key exactly once in an unspecified order, so what such a loop collects
 * is fixed only up to this multiset.
 */
module MapBags {

  /** The multiset of the values of `m`: each value as often as keys map to it. */
  ghost function Bag<K, V>(m: map<K, V>): multiset<V>
    decreases m.Keys
  {
    if m.Keys == {} then multiset{}
    else
      var k :| k in m.Keys;
      multiset{m[k]} + Bag(m - {k})
  }

  /** Removing any key, not only the one `Bag` happens to pick, takes exactly its value out of the bag. */
  lemma {:induction false} BagRemove<K, V>(m: map<K, V>, k: K)
    requires k in m
    ensures Bag(m) == multiset{m[k]} + Bag(m - {k})
    decreases m.Keys
  {
    var j :| j in m.Keys && Bag(m) == multiset{m[j]} + Bag(m - {j});
    if j != k {
      var withoutJ, withoutK := m - {j}, m - {k};
      var withoutBoth := withoutJ - {k};
      assert k in withoutJ && withoutJ[k] == m[k];
      assert j in withoutK && withoutK[j] == m[j];
      assert withoutK - {j} == withoutBoth;
      BagRemove(withoutJ, k);
      BagRemove(withoutK, j);
      calc {
        Bag(m);
        multiset{m[j]} + Bag(withoutJ);
        multiset{m[j]} + (multiset{m[k]} + Bag(withoutBoth));
        multiset{m[k]} + (multiset{m[j]} + Bag(withoutBoth));
        multiset{m[k]} + Bag(withoutK);
      }
    }
  }

  /** The bag has one element per key. */
  lemma {:induction false} BagSize<K, V>(m: map<K, V>)
    ensures |Bag(m)| == |m|
    decreases m.Keys
  {
    if m.Keys != {} {
      var k :| k in m.Keys;
      BagRemove(m, k);
      BagSize(m - {k});
      assert (m - {k}).Keys == m.Keys - {k};
      assert |(m - {k}).Keys| == |m.Keys| - 1;
    }
  }

  /** A value is in the bag exactly when some key maps to it. */
  lemma {:induction false} BagSupport<K, V>(m: map<K, V>, v: V)
    ensures v in Bag(m) <==> v in m.Values
    decreases m.Keys
  {
    if m.Keys != {} {
      var k :| k in m.Keys;
      BagRemove(m, k);
      BagSupport(m - {k}, v);
      if v in m.Values && v != m[k] {
        var j :| j in m && m[j] == v;
        assert j in (m - {k}) && (m - {k})[j] == v;
      }
    }
  }
}
