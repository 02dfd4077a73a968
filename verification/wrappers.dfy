/** Optional values: a JavaScript value that may be `null` or `undefined`. */
module Wrappers {

  datatype Option<+T> = None | Some(value: T)

  /** Looking a key up in a map, as `obj[key]` does (absent keys give `undefined`). */
  function Lookup<K, V>(m: map<K, V>, k: K): Option<V> {
    if k in m then Some(m[k]) else None
  }
}
