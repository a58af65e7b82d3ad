/** Option and Result: Go's nil-able references and `(value, err)` pairs as values. */
module Results {

  /** A reference that may be nil. */
  datatype Option<+T> = None | Some(value: T)

  /** The `(value, err)` pair of a Go function: exactly one of the two is meaningful. */
  datatype Result<+T, +E> = Success(value: T) | Failure(error: E)
}
