/** Optional values and results with an error path, as used across the model. */
module Wrappers {

  /** A value that may be absent: a JSON `null`, a missing dictionary key or a NaN cell. */
  datatype Option<+T> = None | Some(value: T) {

    /** The held value, or `fallback` when there is none. */
    function GetOr(fallback: T): (r: T)
      ensures Some? ==> r == value
      ensures None? ==> r == fallback
    {
      match this
      case Some(v) => v
      case None => fallback
    }
  }

  /** The outcome of a run that either produces a value or stops early for a stated reason. */
  datatype Result<+R, +E> = Success(value: R) | Failure(error: E)

  /** Dictionary lookup that answers `None` for a missing key, like Python's `dict.get`. */
  function Get<K, V>(m: map<K, V>, k: K): (r: Option<V>)
    ensures r.Some? <==> k in m
    ensures r.Some? ==> r.value == m[k]
  {
    if k in m then Some(m[k]) else None
  }
}
