/** Option and Result, the two wrappers used for the source's `None` returns and raised exceptions. */
module Basics {

  datatype Option<+T> = None | Some(value: T)

  datatype Result<+T, +E> = Ok(value: T) | Err(error: E)
}
