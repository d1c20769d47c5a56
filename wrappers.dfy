/** Optional values: a Java reference that may be null, a Redis key that may be missing. */
module Wrappers {

  datatype Option<+T> = None | Some(value: T)

  /** The value held under `k` in `m`, or None when the key is absent. */
  function Get<K, V>(m: map<K, V>, k: K): (r: Option<V>)
    ensures r.Some? <==> k in m
    ensures r.Some? ==> r.value == m[k]
  {
    if k in m then Some(m[k]) else None
  }
}
