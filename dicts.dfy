/** A Python `dict` with string keys. Python dicts remember the order in
    which keys were first inserted, and the engine's listings
    (`get_available_quests`, `get_quests_by_level`) come out in that order,
    so a dict is its entries together with its key order. */
module Dicts {

  datatype Dict<V> = Dict(keys: seq<string>, entries: map<string, V>)

  /** Every key appears once in the order, and the order holds exactly the
      keys that have entries. */
  predicate WellOrdered<V>(d: Dict<V>) {
    (forall i, j :: 0 <= i < j < |d.keys| ==> d.keys[i] != d.keys[j])
    && (forall k :: k in d.entries ==> k in d.keys)
    && (forall i :: 0 <= i < |d.keys| ==> d.keys[i] in d.entries)
  }

  type OrderedMap<V> = d: Dict<V> | WellOrdered(d) witness Dict([], map[])

  function Empty<V>(): (r: OrderedMap<V>)
    ensures r.keys == [] && r.entries == map[]
  {
    Dict([], map[])
  }

  /** `d[k] = v`: a new key goes to the end of the order, an existing key
      keeps its place and takes the new value. */
  function Put<V>(d: OrderedMap<V>, k: string, v: V): (r: OrderedMap<V>)
    ensures r.entries == d.entries[k := v]
    ensures k in d.entries ==> r.keys == d.keys
    ensures k !in d.entries ==> r.keys == d.keys + [k]
  {
    if k in d.entries then Dict(d.keys, d.entries[k := v])
    else Dict(d.keys + [k], d.entries[k := v])
  }

  /** `list(d.values())`. */
  function Values<V>(d: OrderedMap<V>): (r: seq<V>)
    ensures |r| == |d.keys|
    ensures forall i :: 0 <= i < |d.keys| ==> r[i] == d.entries[d.keys[i]]
  {
    seq(|d.keys|, i requires 0 <= i < |d.keys| => d.entries[d.keys[i]])
  }
}
