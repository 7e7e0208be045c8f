/**
 * A JavaScript `Map`: a dictionary that remembers the order in which its
 * keys were first inserted. `set` on a new key appends it; `set` on a known
 * key replaces the value in place; `values()` and `entries()` iterate in key
 * insertion order.
 */
module OrderedMaps {
  import opened Options

  datatype OrderedMap<K(==,!new), V> = OrderedMap(keys: seq<K>, entries: map<K, V>) {
    /** Exactly the keys of `entries` are listed. */
    ghost predicate Listed() {
      forall k :: k in entries <==> k in keys
    }

    /** The keys are listed once each, and exactly the keys of `entries` are listed. */
    ghost predicate Valid() {
      (forall i, j :: 0 <= i < j < |keys| ==> keys[i] != keys[j]) && Listed()
    }

    /** `m.get(k)`. */
    function Get(k: K): (r: Option<V>)
      ensures Listed() ==> (r.Some? <==> k in keys)
      ensures r.Some? ==> k in entries && r.value == entries[k]
    {
      if k in entries then Some(entries[k]) else None
    }

    /** `m.set(k, v)`. */
    function Set(k: K, v: V): (m: OrderedMap<K, V>)
      ensures Listed() ==> m.Listed()
      ensures Valid() ==> m.Valid()
      ensures m.entries == entries[k := v]
      ensures m.keys == if k in entries then keys else keys + [k]
    {
      OrderedMap(if k in entries then keys else keys + [k], entries[k := v])
    }

    /** `Array.from(m.values())`. */
    function Values(): (vs: seq<V>)
      requires Listed()
      ensures |vs| == |keys|
      ensures forall i :: 0 <= i < |keys| ==> vs[i] == entries[keys[i]]
    {
      seq(|keys|, i requires 0 <= i < |keys| => entries[keys[i]])
    }
  }

  /** `new Map()`. */
  function Empty<K(==,!new), V>(): (m: OrderedMap<K, V>)
    ensures m.Valid() && m.keys == []
  {
    OrderedMap([], map[])
  }

  /** Setting a new key appends its value to the values. */
  lemma SetNewValues<K(!new), V>(m: OrderedMap<K, V>, k: K, v: V)
    requires m.Listed() && k !in m.entries
    ensures m.Set(k, v).Values() == m.Values() + [v]
  {
    var n := m.Set(k, v);
    forall i | 0 <= i < |m.keys| ensures n.Values()[i] == m.Values()[i] {
      assert m.keys[i] in m.entries;
    }
  }
}
