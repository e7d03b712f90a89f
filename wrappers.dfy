/** Option and Result, used for the lookups that may miss and for the
    fatal fetch failure. */
module Wrappers {

  datatype Option<+T> = None | Some(value: T)

  datatype Result<+R, +E> = Success(value: R) | Failure(error: E)
}
