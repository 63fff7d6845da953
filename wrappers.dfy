/** Option and Result values standing in for JavaScript's `undefined`/`NaN` results and thrown errors. */
module Wrappers {

  /** `None` is a value JavaScript leaves undefined or turns into `NaN`. */
  datatype Option<+T> = None | Some(value: T) {
    /** The wrapped value, or `default` when there is none. */
    function GetOr(default: T): T {
      match this
      case Some(v) => v
      case None => default
    }
  }

  /** A call that either returns a value or throws `error`. */
  datatype Result<+T, +E> = Success(value: T) | Failure(error: E)

  /** The JavaScript errors the modelled code can throw. */
  datatype Thrown = TypeError | ReferenceError
}
