/** Failure-carrying datatypes shared by the model: an optional value (a possibly
    absent field, `undefined`) and the outcome of an operation that may throw. */
module Wrappers {

  datatype Option<+T> = None | Some(value: T) {
    function GetOr(default: T): T {
      match this
      case Some(v) => v
      case None => default
    }
  }

  /** A thrown JavaScript error is modelled by `Failure` carrying its message. */
  datatype Result<+T, +E> = Success(value: T) | Failure(error: E)
}
