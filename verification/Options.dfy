/** Optional values: a Go pointer that may be nil, a lookup that may miss. */
module Options {

  datatype Option<+T> = None | Some(value: T) {
    /** `ptr.Deref(p, default)`. */
    function GetOr(default: T): T {
      if Some? then value else default
    }
  }

  /** The value for a key, if there is one. */
  function Lookup<K, V>(m: map<K, V>, k: K): Option<V> {
    if k in m then Some(m[k]) else None
  }

  /** The outcome of an operation that may report an error. */
  datatype Result<+T> = Ok(value: T) | Err
}
