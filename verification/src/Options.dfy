/** An optional value, used where the program tests presence in a Go map. */
module Options {
  datatype Option<+T> = None | Some(value: T)

  /** The two-result map lookup `v, ok := m[k]`. */
  function Get<K, V>(m: map<K, V>, k: K): Option<V> {
    if k in m then Some(m[k]) else None
  }

  /** Writes (Some) or removes (None) one key. */
  function Put<K, V>(m: map<K, V>, k: K, v: Option<V>): map<K, V> {
    match v
    case Some(x) => m[k := x]
    case None => m - {k}
  }
}
