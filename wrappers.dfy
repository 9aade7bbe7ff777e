/** Option and Result: `None` for an absent value, `Failure` for an error
    that ends an operation. */
module Wrappers {

  datatype Option<+T> = None | Some(value: T)

  datatype Result<+T, +E> = Success(value: T) | Failure(error: E)
}
