/** Option and Result, the failure-carrying datatypes used across the model. */
module Wrappers {

  datatype Option<+T> = None | Some(value: T) {
    /** Swift's `??`: the wrapped value, or the default when there is none. */
    function GetOr(default: T): T {
      match this
      case Some(v) => v
      case None => default
    }
  }

  /** A runtime trap of the Swift program (index out of range, fatalError, `!` on nil). */
  datatype Trap = IndexOutOfRange | UnexpectedAnnotationType | NilUnwrap

  datatype Result<+R, +E> = Ok(value: R) | Err(error: E)
}
