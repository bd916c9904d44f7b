/** Option and Result, the two shapes in which the service commands report
    an absent value or a failure. */
module Wrappers {

  datatype Option<+T> = None | Some(value: T)

  datatype Result<+T, +E> = Ok(value: T) | Err(error: E)
}
