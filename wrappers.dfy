/** Optional values (the source's `null`) and results (a value or the exception thrown instead). */
module Wrappers {

  datatype Option<+T> = None | Some(value: T) {

    /** The value, or `default` when absent (PHP's `??`). */
    function GetOr(default: T): T {
      match this
      case Some(v) => v
      case None => default
    }
  }

  /** A value, or the error the source would throw instead. */
  datatype Result<+T, +E> = Ok(value: T) | Err(error: E)
}
