/** Optional and fallible results shared by the decoder modules. */
module Wrappers {

  /** A value that may be absent (a C# nullable). */
  datatype Option<+T> = None | Some(value: T)

  /** The outcome of an operation that can fail; usable with `:-`. */
  datatype Result<+T, +E> = Success(value: T) | Failure(error: E) {
    predicate IsFailure() {
      Failure?
    }

    function PropagateFailure<U>(): Result<U, E>
      requires Failure?
    {
      Failure(error)
    }

    function Extract(): T
      requires Success?
    {
      value
    }
  }
}
