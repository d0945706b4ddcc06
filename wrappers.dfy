/** Option and Result, used for the absent fields of an API reply and for
    the success-or-error outcome of a service call. */
module Wrappers {

  datatype Option<+T> = None | Some(value: T)

  datatype Result<+R, +E> = Success(value: R) | Failure(error: E)
}
