/** Option and Result, the shapes Swift's optionals and error returns take in this model. */
module Wrappers {

  /** Swift's `T?`: a value or `nil`. */
  datatype Option<+T> = None | Some(value: T) {
    /** Swift's `??` operator. */
    function GetOr(default: T): T {
      match this
      case Some(v) => v
      case None => default
    }
  }

  /** Either a value or an error. */
  datatype Result<+R, +E> = Success(value: R) | Failure(error: E)
}
