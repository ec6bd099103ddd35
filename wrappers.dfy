/** The optional-value and result types used throughout the model. */
module Wrappers {

  datatype Option<+T> = None | Some(value: T) {

    /** The value in Some, or the default when None. */
    function GetOr(default: T): T {
      match this
      case Some(v) => v
      case None => default
    }
  }

  /** A value, or the error a Python function raises instead. */
  datatype Result<+T, +E> = Ok(value: T) | Err(error: E)
}
