/** Option and Result values used across the model for absent values and
    for the exceptions the source raises and catches. */
module Wrappers {

  datatype Option<+T> = None | Some(value: T)

  datatype Result<+R, +E> = Success(value: R) | Failure(error: E)
}
