/** Option and Result values standing in for Go's "value, ok" and
    "value, err" return pairs. */
module Wrappers {

  datatype Option<+T> = None | Some(value: T)

  datatype Result<+R, +E> = Ok(value: R) | Err(error: E)
}
