/** Option and Result, used wherever the C code returns NULL, NaN or a failure code. */
module Wrappers {

  datatype Option<+T> = None | Some(value: T)

  datatype Result<+T, +E> = Success(value: T) | Failure(error: E)
}
