/** Option and Result types shared by every module of the model. */
module Wrappers {

  datatype Option<+T> = None | Some(value: T)

  /** Either a value, or the kind of error the source would have thrown. */
  datatype Result<+T, +E> = Success(value: T) | Failure(error: E)
}
