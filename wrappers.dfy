/** Failure-carrying values shared by the model: Go's nil pointers and
    (value, error) pairs are written as Option and Result. */
module Wrappers {

  datatype Option<+T> = None | Some(value: T)

  datatype Result<+T, +E> = Success(value: T) | Failure(error: E)
}
