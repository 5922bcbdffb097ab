/** Option and Result, used for the repository's fetch result and for the
    service's returned message or raised error. */
module Wrappers {

  datatype Option<T> = None | Some(value: T)

  datatype Result<T, E> = Ok(value: T) | Err(error: E)
}
