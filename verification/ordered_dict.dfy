/**
 * A Python `dict` with string keys: a map together with the insertion order
 * of its keys, which is the order in which Python iterates over it.
 */
module OrderedDict {
  import opened Common

  datatype Dict<V> = Dict(keys: seq<string>, items: map<string, V>) {

    /** Every key is listed once, and exactly the mapped keys are listed. */
    ghost predicate Valid() {
      NoDup(keys) && items.Keys == Elements(keys)
    }

    /** The value stored under `k`, or `default` when `k` is absent (a `defaultdict` read). */
    function GetOr(k: string, default: V): V {
      if k in items then items[k] else default
    }

    /**
     * `d[k] = v`: a key already present keeps its position and gets the new
     * value; a new key goes to the end of the iteration order.
     */
    function Put(k: string, v: V): (d: Dict<V>)
      ensures Valid() ==> d.Valid()
      ensures d.items == items[k := v]
      ensures k in items ==> d.keys == keys
      ensures k !in items ==> d.keys == keys + [k]
    {
      if k in items then Dict(keys, items[k := v]) else Dict(keys + [k], items[k := v])
    }
  }

  function Empty<V>(): (d: Dict<V>)
    ensures d.Valid() && d.keys == [] && d.items == map[]
  {
    Dict([], map[])
  }
}
