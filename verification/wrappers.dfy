/** Option and Result: the model's stand-ins for Go's nil pointers and (value, error) pairs. */
module Wrappers {

  /** A value that may be absent, as a nil-able pointer field is in the source. */
  datatype Option<+T> = None | Some(value: T) {

    /** The carried value, or `default` when absent. */
    function GetOr(default: T): T {
      match this
      case Some(v) => v
      case None => default
    }
  }

  /** The outcome of an operation that either yields a value or an error. */
  datatype Result<+R, +E> = Success(value: R) | Failure(error: E)
}
