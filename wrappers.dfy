/** Optional values and results with an error, used for Java's nullable
    references, `Optional` and thrown exceptions. */
module Wrappers {

  /** A value that may be absent: Java's `Optional<T>` or a nullable reference. */
  datatype Option<+T> = None | Some(value: T)

  /** The outcome of an operation that either yields a value or fails with an exception. */
  datatype Result<+R, +E> = Success(value: R) | Failure(error: E)

  /** The entry of `m` under `k`, if any. */
  function Get<K, V>(m: map<K, V>, k: K): Option<V> {
    if k in m then Some(m[k]) else None
  }
}
