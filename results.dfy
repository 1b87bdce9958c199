/** Option and Result, the failure-carrying values used across the model. */
module Results {

  datatype Option<+T> = None | Some(value: T)

  /** The outcome of an operation that the source may end by throwing. */
  datatype Result<+T, +E> = Success(value: T) | Failure(error: E)
}
