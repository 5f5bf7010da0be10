/** Small option and result wrappers shared by every module of the model. */
module Wrappers {

  /** A value that may be absent: Java's `null`, Go's `nil`. */
  datatype Option<+T> = None | Some(value: T) {
    function GetOr(default: T): T {
      match this
      case Some(v) => v
      case None => default
    }
  }

  /** The value of an operation that can fail with an error of type E
      (a thrown exception, a Go `panic`, a `log.Fatal`). */
  datatype Result<+T, +E> = Ok(value: T) | Err(error: E)
}
