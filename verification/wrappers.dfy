/** Option, Result and Outcome: Java's nullable references and thrown
    exceptions, made explicit. */
module Wrappers {

  /** A Java reference that may be null. */
  datatype Option<+T> = None | Some(value: T) {
    function GetOr(default: T): T {
      match this
      case Some(v) => v
      case None => default
    }
  }

  /** A call that either returns a value or throws an error. */
  datatype Result<+T, +E> = Success(value: T) | Failure(error: E)

  /** A void call that either returns normally or throws an error. */
  datatype Outcome<+E> = Pass | Fail(error: E)
}
