/** Failure-carrying return values shared by the model's modules. */
module Wrappers {

  /** An optional value: a dictionary lookup that may miss, a match that may fail. */
  datatype Option<+T> = None | Some(value: T)

  /** Either a value or the error the source raises instead of returning one. */
  datatype Result<+R, +E> = Success(value: R) | Failure(error: E)
}
