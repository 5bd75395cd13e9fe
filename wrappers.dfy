/** Optional values and results shared by the step schemas and the wizard. */
module Wrappers {

  /** A value that may be missing; `None` stands for JavaScript's `undefined`. */
  datatype Option<+T> = None | Some(value: T) {
    function GetOr(default: T): T {
      match this
      case Some(v) => v
      case None => default
    }
  }

  /** The outcome of a validation: the parsed value, or the names of the fields in error. */
  datatype Result<+T, +E> = Ok(value: T) | Err(error: E)
}
