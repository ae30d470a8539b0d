/** Failure-compatible wrappers used for the library's null references and exceptions. */
module Wrappers {

  /** A reference that may be null: `None` models a null argument. */
  datatype Option<+T> = None | Some(value: T)

  /** The outcome of an operation that either returns a value or throws. */
  datatype Result<+R, +E> = Success(value: R) | Failure(error: E) {
    predicate IsFailure() {
      Failure?
    }

    function PropagateFailure<U>(): Result<U, E>
      requires Failure?
    {
      Failure(error)
    }

    function Extract(): R
      requires Success?
    {
      value
    }
  }

  /** The exceptions the casing translator throws. */
  datatype Error =
    | NullArgument           // ArgumentNullException for a null string, writer or reader
    | EmptyIdentifier        // ArgumentException from detection of a null or empty identifier
    | UnsupportedTargetStyle // ArgumentException for the indeterminate style as an output target
    | IndexOutOfRange        // IndexOutOfRangeException from reading before the start of a string
}
