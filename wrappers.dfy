/** Option and Result values: the model's stand-ins for Python's `None`
    and for the exceptions the source lets escape. */
module Wrappers {

  datatype Option<+T> = None | Some(value: T)

  datatype Result<+R, +E> = Success(value: R) | Failure(error: E)
}
