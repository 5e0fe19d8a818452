/** Optional values, standing in for Python's `None`-or-value returns and dict lookups. */
module Wrappers {

  /** `None` is Python's `None`; `Some(v)` a present value. */
  datatype Option<+T> = None | Some(value: T) {

    /** The value if present, else `default` (Python's `d.get(k, default)`). */
    function GetOr(default: T): T {
      match this
      case Some(v) => v
      case None => default
    }
  }

  /** Python's `d.get(k)` on a map. */
  function Lookup<K, V>(m: map<K, V>, k: Option<K>): (r: Option<V>)
    ensures r.Some? <==> k.Some? && k.value in m
    ensures r.Some? ==> r.value == m[k.value]
  {
    if k.Some? && k.value in m then Some(m[k.value]) else None
  }

  /** A value, or the error that prevented it. */
  datatype Result<+T, +E> = Success(value: T) | Failure(error: E)
}
