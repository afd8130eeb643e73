/** Java's nullable references and thrown exceptions, as values. */
module Wrappers {

  /** A nullable Java reference: `None` stands for `null`. */
  datatype Option<+T> = None | Some(value: T)

  /** The outcome of a Java call that returns a value or throws. */
  datatype Result<+T, +E> = Success(value: T) | Failure(error: E)

  /** The value bound to `k`, or `None` when `m` has no entry (`Map.get` returning null). */
  function Lookup<K, V>(m: map<K, V>, k: K): (r: Option<V>)
    ensures r.Some? <==> k in m
    ensures r.Some? ==> r.value == m[k]
  {
    if k in m then Some(m[k]) else None
  }
}
