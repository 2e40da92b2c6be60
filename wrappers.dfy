/** Failure-carrying datatypes shared by the other modules. */
module Wrappers {

  datatype Option<+T> = None | Some(value: T)

  /** Either a value or the error the PHP code would throw. */
  datatype Result<+T, +E> = Success(value: T) | Failure(error: E)
}
