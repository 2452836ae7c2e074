/** Failure-carrying wrappers used across the model: an absent JavaScript value
    (`undefined`) is `None`, a thrown exception is `Err`. */
module Outcome {

  /** A value that may be missing (`undefined` in the source). */
  datatype Option<+T> = None | Some(value: T) {

    /** The wrapped value, or `default` when missing (the `x !== undefined ? x : d` idiom). */
    function GetOr(default: T): T {
      match this
      case Some(v) => v
      case None => default
    }
  }

  /** The outcome of an operation that may throw. */
  datatype Result<+T, +E> = Ok(value: T) | Err(error: E)
}
