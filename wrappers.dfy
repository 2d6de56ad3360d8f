/** Optional values and results with an error, as returned by the energy core. */
module Wrappers {

  /** A value that may be absent, like a keyword argument left as `None`. */
  datatype Option<+T> = None | Some(value: T)

  /** The outcome of an operation that either yields a value or raises an error. */
  datatype Result<+R, +E> = Success(value: R) | Failure(error: E)
}
