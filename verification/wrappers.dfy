/** Optional values and results with an error branch, used where the source
    relies on `undefined`, `??` and thrown errors. */
module Wrappers {

  /** A value that may be absent (`undefined` in the source). */
  datatype Option<+T> = None | Some(value: T) {

    /** The `??` operator: this value when present, `default` otherwise. */
    function GetOr(default: T): T {
      match this
      case Some(v) => v
      case None => default
    }

    /** `a ?? b` where both sides may be absent. */
    function OrElse(other: Option<T>): Option<T> {
      if Some? then this else other
    }
  }

  /** The outcome of an operation that either returns a value or throws. */
  datatype Result<+R, +E> = Ok(value: R) | Err(error: E)
}
