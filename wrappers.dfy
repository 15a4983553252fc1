/** Option and Result values standing for Go's nil / (value, error) pairs
    and Python's raised exceptions. Errors are carried as their message text. */
module Wrappers {

  datatype Option<+T> = None | Some(value: T)

  datatype Result<+T> = Ok(value: T) | Err(error: string)
}
