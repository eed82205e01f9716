/** Option and Result, used for the absent optional peripheral and for the
    exceptions the build entry point can raise. */
module Wrappers {

  datatype Option<+T> = None | Some(value: T)

  datatype Result<+R, +E> = Success(value: R) | Failure(error: E)
}
