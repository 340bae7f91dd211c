/** Failure-carrying return values, standing in for Python's `None` results and raised exceptions. */
module Wrappers {

  datatype Option<T> = None | Some(value: T)

  datatype Result<T, E> = Ok(value: T) | Err(error: E)
}
