/** Option and Result, used for absent record fields and for the exceptions the collaborators raise. */
module Wrappers {

  datatype Option<+T> = None | Some(value: T)

  datatype Result<+R, +E> = Success(value: R) | Failure(error: E)
}
