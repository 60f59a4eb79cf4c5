/** A value that may be missing, and looking one up. */
module Wrappers {
  datatype Option<T> = None | Some(value: T)

  function Get<K(==), V>(m: map<K, V>, k: K): Option<V> {
    if k in m then Some(m[k]) else None
  }
}
