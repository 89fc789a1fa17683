/** Option and Result, the two failure-compatible wrappers the model uses for
    C#'s nullable references and for the exceptions the source throws. */
module Wrappers {

  /** A value that may be absent: `None` stands for a C# `null`. */
  datatype Option<+T> = None | Some(value: T) {

    /** The value, or `default` when absent (C#'s `??`). */
    function GetOr(default: T): T {
      match this
      case Some(v) => v
      case None => default
    }
  }

  /** The outcome of an operation that may throw: `Failure` carries the exception. */
  datatype Result<+R, +E> = Success(value: R) | Failure(error: E) {

    predicate IsFailure() {
      Failure?
    }

    function PropagateFailure<U>(): Result<U, E>
      requires Failure?
    {
      Failure(error)
    }

    function Extract(): R
      requires Success?
    {
      value
    }
  }
}
