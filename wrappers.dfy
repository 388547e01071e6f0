/** Option and Result values used for the missing fields, failed lookups and
    thrown errors of the ticketing back end and its client hook. */
module Wrappers {

  datatype Option<+T> = None | Some(value: T)

  datatype Result<+T, +E> = Ok(value: T) | Err(error: E)
}
