/** Nullable values, results with an error path, and the errors the core can raise. */
module Wrappers {

  /** A C# reference that may be null: `None` is null. */
  datatype Option<+T> = None | Some(value: T)

  /** The outcome of a call that may throw: `Failure` carries the exception. */
  datatype Result<+R, +E> = Success(value: R) | Failure(error: E) {
    predicate IsFailure() {
      Failure?
    }

    function PropagateFailure<U>(): Result<U, E>
      requires Failure?
    {
      Failure(error)
    }

    function Extract(): R
      requires Success?
    {
      value
    }
  }

  /** The exceptions that leave the core. */
  datatype Error =
    | FileNotFound(path: string)        // File.OpenText on a path that cannot be read
    | ArgumentNull(paramName: string)    // ArgumentNullException(paramName)
    | InvalidArgument(paramName: string) // ArgumentException(paramName), e.g. File.OpenText("")
    | BackendFailure(code: int)          // anything the database driver throws
}
