/** Optional values and failing computations, shared by every module. */
module Wrappers {

  /** A value that may be absent: SQL `NULL`, a JavaScript `null` or a missing field. */
  datatype Option<+T> = None | Some(value: T)

  /** The outcome of an operation that may fail, such as a database statement. */
  datatype Result<+R, +E> = Success(value: R) | Failure(error: E)
}
