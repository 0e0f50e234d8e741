/** ECMAScript `Map`: a finite map that also remembers the order in which its
    keys were first inserted. `set` on a present key replaces the value in
    place; `set` on a new key appends it; `values()` and `forEach` visit the
    entries in that order. This system never deletes from an ordered map. */
module JsMaps {
  import opened Options

  datatype MapState<K(==,!new), V> = MapState(order: seq<K>, entries: map<K, V>)

  /** The order lists every key exactly once. */
  ghost predicate WellFormed<K(!new), V>(m: MapState<K, V>) {
    && (forall i, j :: 0 <= i < j < |m.order| ==> m.order[i] != m.order[j])
    && (forall k :: k in m.entries <==> k in m.order)
  }

  type JsMap<K(==,!new), V> = m: MapState<K, V> | WellFormed(m) witness MapState([], map[])

  function Empty<K(==,!new), V>(): JsMap<K, V> {
    MapState([], map[])
  }

  /** `m.get(k)`, `None` standing for `undefined`. */
  function Get<K(==,!new), V>(m: JsMap<K, V>, k: K): Option<V> {
    if k in m.entries then Some(m.entries[k]) else None
  }

  /** `m.set(k, v)`. */
  function Set<K(==,!new), V>(m: JsMap<K, V>, k: K, v: V): (r: JsMap<K, V>)
    ensures r.entries == m.entries[k := v]
    ensures k in m.entries ==> r.order == m.order
    ensures k !in m.entries ==> r.order == m.order + [k]
  {
    if k in m.entries then MapState(m.order, m.entries[k := v])
    else MapState(m.order + [k], m.entries[k := v])
  }

  /** `Array.from(m.values())`: the values in insertion order. */
  function Values<K(==,!new), V>(m: JsMap<K, V>): (vs: seq<V>)
    ensures |vs| == |m.order|
    ensures forall i :: 0 <= i < |m.order| ==> m.order[i] in m.entries && vs[i] == m.entries[m.order[i]]
  {
    seq(|m.order|, i requires 0 <= i < |m.order| => m.entries[m.order[i]])
  }

  /** Rewriting every entry in place (a `forEach` that only `set`s keys it visits):
      the keys and their order are unchanged. */
  function MapEntries<K(==,!new), V>(m: JsMap<K, V>, f: (K, V) -> V): (r: JsMap<K, V>)
    ensures r.order == m.order
    ensures r.entries.Keys == m.entries.Keys
    ensures forall k :: k in m.entries ==> r.entries[k] == f(k, m.entries[k])
  {
    MapState(m.order, map k | k in m.entries :: f(k, m.entries[k]))
  }
}
