/**
 * An insertion-ordered dictionary, as Python's `dict` is: assigning to a
 * key already present keeps its position, a new key goes to the end.
 */
module Dicts {

  datatype Dict<K, V> = Dict(keys: seq<K>, entries: map<K, V>)

  function Empty<K, V>(): Dict<K, V> {
    Dict([], map[])
  }

  /** `d[k] = v`. */
  function Put<K, V>(d: Dict<K, V>, k: K, v: V): (r: Dict<K, V>)
    ensures r.entries == d.entries[k := v]
    ensures r.keys == if k in d.entries then d.keys else d.keys + [k]
  {
    if k in d.entries then Dict(d.keys, d.entries[k := v]) else Dict(d.keys + [k], d.entries[k := v])
  }

  /** The key list holds each key of the entries exactly once. */
  ghost predicate Valid<K(!new), V>(d: Dict<K, V>) {
    && (forall k :: k in d.entries <==> k in d.keys)
    && (forall i, j :: 0 <= i < j < |d.keys| ==> d.keys[i] != d.keys[j])
  }

  lemma PutValid<K(!new), V>(d: Dict<K, V>, k: K, v: V)
    requires Valid(d)
    ensures Valid(Put(d, k, v))
  {
  }
}
