/** Failure-carrying values used where the program either succeeds or raises. */
module Wrappers {

  /** A value that may be absent: here, the outcome of parsing the seed text. */
  datatype Option<+T> = None | Some(value: T)

  /** A computed value, or the error the program would raise instead. */
  datatype Result<+R, +E> = Success(value: R) | Failure(error: E)
}
