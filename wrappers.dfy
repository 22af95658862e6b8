/** Optional values: `T | undefined` in the source. */
module Wrappers {

  datatype Option<+T> = None | Some(value: T) {

    /** `x ?? d` / `x || d` on a value that is either present or undefined. */
    function GetOr(default: T): T {
      match this
      case Some(v) => v
      case None => default
    }
  }

  /** `m.get(k)` on a JavaScript Map. */
  function Lookup<K, V>(m: map<K, V>, k: K): (r: Option<V>)
    ensures r.Some? <==> k in m
    ensures r.Some? ==> r.value == m[k]
  {
    if k in m then Some(m[k]) else None
  }
}
