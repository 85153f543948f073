/** A map that remembers the order in which its keys were first set, as a JavaScript Map does. */
module OrderedMaps {
  import opened Wrappers

  datatype OrderedMap<K(==), V> = OrderedMap(keys: seq<K>, at: map<K, V>) {

    ghost predicate Valid() {
      && (forall k :: k in keys ==> k in at)
      && (forall k :: k in at ==> k in keys)
      && (forall i, j :: 0 <= i < j < |keys| ==> keys[i] != keys[j])
    }

    function Get(k: K): Option<V> {
      if k in at then Some(at[k]) else None
    }

    // Setting a key that is already there keeps its place.
    function Set(k: K, v: V): (m: OrderedMap<K, V>)
      ensures Valid() ==> m.Valid()
    {
      OrderedMap(if k in at then keys else keys + [k], at[k := v])
    }
  }

  function Empty<K, V>(): (m: OrderedMap<K, V>)
    ensures m.Valid()
  {
    OrderedMap([], map[])
  }

  lemma {:induction false} SetSame<K, V>(m: OrderedMap<K, V>, k: K)
    requires k in m.at
    ensures m.Set(k, m.at[k]) == m
  {
    assert m.at[k := m.at[k]] == m.at;
  }
}
