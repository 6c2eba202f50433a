/** Option and Result: Option stands for a Java reference that may be null,
    Result for a value or the exception a call raises instead. */
module Wrappers {

  datatype Option<+T> = None | Some(value: T)

  datatype Result<+R, +E> = Success(value: R) | Failure(error: E)
}
