/** Option and Result, used for Go's nil values, `(value, ok)` pairs and error returns. */
module Wrappers {

  datatype Option<+T> = None | Some(value: T)

  /** The outcome of an operation that can fail; a Go panic becomes a Failure too. */
  datatype Result<+T, +E> = Success(value: T) | Failure(error: E)

  /** Go's map index expression `m[k]` on a map whose missing keys read as nil. */
  function Lookup<K, V>(m: map<K, V>, k: K): (r: Option<V>)
    ensures r.Some? <==> k in m
    ensures r.Some? ==> r.value == m[k]
  {
    if k in m then Some(m[k]) else None
  }
}
