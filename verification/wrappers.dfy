/** Failure-carrying values shared by the model. */
module Wrappers {

  /** An optional value: a pointer that may be nil, an error that may be absent. */
  datatype Option<+T> = None | Some(value: T)

  /** Either a value or the error that prevented computing it. */
  datatype Result<+R, +E> = Success(value: R) | Failure(error: E)
}
