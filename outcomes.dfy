/** Optional values and success-or-error results, used wherever the source
    returns `null`/`undefined` or throws. */
module Outcomes {

  /** A value that may be absent (`null` or `undefined` in the source). */
  datatype Option<+T> = None | Some(value: T) {
    function GetOr(default: T): T {
      match this
      case Some(v) => v
      case None => default
    }
  }

  /** The result of an operation that may throw: `Ok` carries the value,
      `Err` the thrown error. */
  datatype Result<+T, +E> = Ok(value: T) | Err(error: E)
}
