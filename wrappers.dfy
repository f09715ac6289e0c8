/** Option and Result, used for PHP's null results and thrown exceptions. */
module Wrappers {

  datatype Option<+T> = None | Some(value: T)

  /** A call either returns a value or throws an exception. */
  datatype Result<+R, +E> = Success(value: R) | Failure(error: E)
}
