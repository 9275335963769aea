/** Absent-or-present values (the C# null) and results that may carry a runtime fault. */
module Optional {

  /** A value that may be absent; None stands for a C# null reference. */
  datatype Option<+T> = None | Some(value: T)

  /** The outcome of an operation that may raise instead of returning. */
  datatype Result<+T, +E> = Success(value: T) | Failure(error: E)
}
