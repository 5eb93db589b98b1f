/** Failure-carrying values shared by the modules of this model. */
module Results {

  /** A value that may be absent: a dictionary miss, a line that is not an entry. */
  datatype Option<+T> = None | Some(value: T)

  /** The outcome of an operation that can raise in the source. */
  datatype Result<+R, +E> = Success(value: R) | Failure(error: E)
}
