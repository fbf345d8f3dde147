/** Option and Result, the failure-carrying values used by the store calls. */
module Wrappers {

  datatype Option<+T> = None | Some(value: T)

  /** The outcome of a store read: the object, or the error the client returned. */
  datatype Result<+R, +E> = Success(value: R) | Failure(error: E)
}
