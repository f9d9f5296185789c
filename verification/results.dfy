/** Failure-carrying values shared by the other modules: the Go pattern
    `(value, error)` becomes a `Result`, an optional error an `Option`. */
module Results {

  /** A value that may be absent; used for an error that may or may not have occurred. */
  datatype Option<+T> = None | Some(value: T)

  /** Either a value or the error that prevented computing it. */
  datatype Result<+T, +E> = Success(value: T) | Failure(error: E)
}
