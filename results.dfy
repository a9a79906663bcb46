/** Optional values and results with an error, shared by every module of the model. */
module Results {

  /** A value that may be missing: JavaScript's `null`/`undefined` versus a present value. */
  datatype Option<+T> = None | Some(value: T)

  /** The outcome of an operation that may throw: a value, or the error it raises. */
  datatype Result<+T, +E> = Success(value: T) | Failure(error: E)
}
