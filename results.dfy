/** Failure-carrying values used instead of Python's None returns and exceptions. */
module Results {

  datatype Option<+T> = None | Some(value: T)

  datatype Result<+T, +E> = Success(value: T) | Failure(error: E)

  /** The outcome of a guard or a step that yields no value. */
  datatype Outcome<+E> = Pass | Fail(error: E)
}
