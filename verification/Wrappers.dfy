/** The absent-or-present value that Python writes as `T | None`. */
module Wrappers {
  datatype Option<+T> = None | Some(value: T)

  /** `d.get(k)` on a dict or a MapState. */
  function Get<K, V>(m: map<K, V>, k: K): Option<V> {
    if k in m then Some(m[k]) else None
  }
}
