/** Option and Result: absent values (JavaScript's null/undefined) and
    operations that either produce a value or throw an error. */
module Wrappers {

  datatype Option<+T> = None | Some(value: T)

  datatype Result<+R, +E> = Success(value: R) | Failure(error: E)
}
