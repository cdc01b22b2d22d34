/** Failure-carrying datatypes shared by the configuration and data-loading modules.
    A Python `raise` in the modelled code becomes an `Err`, a normal return an `Ok`. */
module Wrappers {

  datatype Option<+T> = None | Some(value: T)

  datatype Result<+T, +E> = Ok(value: T) | Err(error: E)
}
