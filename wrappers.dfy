/** Failure-carrying values shared by the pricing engine and the calculator component. */
module Wrappers {

  datatype Option<+T> = None | Some(value: T)

  /** A computation that either produced a value or raised an error. */
  datatype Result<+R, +E> = Success(value: R) | Failure(error: E)
}
