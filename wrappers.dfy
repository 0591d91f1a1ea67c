/** Option, Result and Outcome: the shapes used for absent values, for
    operations that return a value or fail, and for operations that only
    succeed or fail (a rejected promise). */
module Wrappers {

  datatype Option<+T> = None | Some(value: T)

  datatype Result<+T, +E> = Success(value: T) | Failure(error: E)

  datatype Outcome<+E> = Pass | Fail(error: E)
}
