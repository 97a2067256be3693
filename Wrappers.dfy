/** Option and Result values standing in for C# null references and thrown exceptions. */
module Wrappers {

  /** A nullable reference: `None` is C#'s null. */
  datatype Option<+T> = None | Some(value: T) {
    function GetOr(default: T): T {
      match this
      case Some(v) => v
      case None => default
    }
  }

  /** The outcome of an operation that either returns a value or throws. */
  datatype Result<+T, +E> = Success(value: T) | Failure(error: E)
}
