/** Option and Result: the model's stand-ins for C# null references and for
    the ArgumentNullException path of the builder's registration methods. */
module Wrappers {

  /** A value that may be absent (a C# reference that may be null). */
  datatype Option<+T> = None | Some(value: T) {

    /** The value, or `default` when absent (the C# `??` operator). */
    function GetOr(default: T): T {
      match this
      case Some(v) => v
      case None => default
    }
  }

  /** Either the fluent result of a registration call or the exception it throws. */
  datatype Result<+R, +E> = Success(value: R) | Failure(error: E)
}
