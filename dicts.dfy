/**
 * A JavaScript plain object used as a dictionary: string keys, enumerated by
 * `Object.keys` in the order they were first assigned.
 */
module Dicts {
  import opened Options

  datatype Dict<V> = Dict(keys: seq<string>, entries: map<string, V>) {
    /** Keys are listed once each, and exactly the keys that have entries. */
    ghost predicate Valid() {
      && (forall i, j :: 0 <= i < j < |keys| ==> keys[i] != keys[j])
      && (forall k :: k in entries <==> k in keys)
    }
  }

  /** `{}` */
  function Empty<V>(): (d: Dict<V>)
    ensures d.Valid()
    ensures d.keys == [] && forall k :: k !in d.entries
  {
    Dict([], map[])
  }

  /** `d[k]`, with `undefined` for a missing key. */
  function Get<V>(d: Dict<V>, k: string): (r: Option<V>)
    ensures r.Some? <==> k in d.entries
    ensures r.Some? ==> r.value == d.entries[k]
  {
    if k in d.entries then Some(d.entries[k]) else None
  }

  /** `d[k] = v`: a new key goes to the end of the order, an existing one keeps its place. */
  function Put<V>(d: Dict<V>, k: string, v: V): (r: Dict<V>)
    requires d.Valid()
    ensures r.Valid()
    ensures Get(r, k) == Some(v)
    ensures forall k' :: k' != k ==> Get(r, k') == Get(d, k')
    ensures r.keys == if k in d.entries then d.keys else d.keys + [k]
  {
    Dict(if k in d.entries then d.keys else d.keys + [k], d.entries[k := v])
  }

  /** Assigning the same key twice leaves only the second value. */
  lemma PutTwice<V>(d: Dict<V>, k: string, v: V, w: V)
    requires d.Valid()
    ensures Put(Put(d, k, v), k, w) == Put(d, k, w)
  {
  }
}
