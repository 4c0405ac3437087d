/** Option and Result values: a missing dictionary key, a model call that failed,
    or an operation that raised instead of returning. */
module Wrappers {

  datatype Option<+T> = None | Some(value: T) {
    /** `value` when present, otherwise `default` (Python's `d.get(k, default)`). */
    function GetOr(default: T): T {
      match this
      case Some(v) => v
      case None => default
    }
  }

  /** `Ok` is a normal return, `Err` an exception propagating to the caller. */
  datatype Result<+T, +E> = Ok(value: T) | Err(error: E)
}
