/**
 * Results of operations that raise in the modelled code: the raising path
 * becomes a `Failure` or a `Fail` carrying what the exception reports.
 */
module Results {

  datatype Option<+T> = None | Some(value: T)

  datatype Result<+T, +E> = Success(value: T) | Failure(error: E)

  /** The outcome of an operation that returns nothing but may raise. */
  datatype Outcome<+E> = Pass | Fail(error: E)
}
