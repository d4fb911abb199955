/** Option and Result: the model's stand-ins for Python's `None` and for
    exceptions that a caller turns into an error value. */
module Wrappers {

  datatype Option<+T> = None | Some(value: T) {

    /** The wrapped value, or `default` when there is none (Python's `d.get(k, default)`). */
    function GetOr(default: T): T {
      match this
      case Some(v) => v
      case None => default
    }
  }

  datatype Result<+R, +E> = Success(value: R) | Failure(error: E)

  /** Python's `d.get(key, default)`. */
  function Field<K, V>(d: map<K, V>, key: K, default: V): V {
    if key in d then d[key] else default
  }
}
