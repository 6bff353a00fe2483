/** Failure-carrying datatypes shared by every module of the model. */
module Wrappers {

  /** A value that may be absent; `None` also stands for a pandas NaN cell. */
  datatype Option<+T> = None | Some(value: T) {
    function GetOr(default: T): T {
      match this
      case Some(v) => v
      case None => default
    }
  }

  /** The outcome of an operation of the source that either returns or raises. */
  datatype Result<+T, +E> = Ok(value: T) | Err(error: E)
}
