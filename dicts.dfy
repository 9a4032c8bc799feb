/**
  A JavaScript plain object used as a dictionary: the property keys in the
  order they were first created (the order `Object.keys` reports) and the
  value stored under each.
 */
module Dicts {
  import opened Wrappers

  type Key = string

  datatype Dict<V> = Dict(keys: seq<Key>, entries: map<Key, V>) {

    /** Every key is listed exactly once, and the listed keys are those that hold a value. */
    ghost predicate Valid() {
      && (forall i, j :: 0 <= i < j < |keys| ==> keys[i] != keys[j])
      && (forall k :: k in entries <==> k in keys)
    }

    /** `this[k]`: the stored value, or `undefined` when the property is missing. */
    function Get(k: Key): (r: Option<V>)
      ensures r.Some? <==> k in entries
      ensures r.Some? ==> r.value == entries[k]
    {
      if k in entries then Some(entries[k]) else None
    }

    function GetOr(k: Key, default: V): (r: V)
      ensures k in entries ==> r == entries[k]
      ensures k !in entries ==> r == default
    {
      Get(k).GetOr(default)
    }

    /**
      `this[k] = v`: a new key goes to the end of the key order, an existing
      key keeps its place.
     */
    function Put(k: Key, v: V): (r: Dict<V>)
      ensures r.entries == entries[k := v]
      ensures k in entries ==> r.keys == keys
      ensures k !in entries ==> r.keys == keys + [k]
      ensures Valid() ==> r.Valid()
    {
      if k in entries then Dict(keys, entries[k := v]) else Dict(keys + [k], entries[k := v])
    }
  }

  /** `{}` */
  function Empty<V>(): (d: Dict<V>)
    ensures d.Valid() && d.keys == [] && d.entries == map[]
  {
    Dict([], map[])
  }
}
