/** Failure-carrying datatypes used throughout the model: an absent value,
    and the outcome of a call that either returns or raises. */
module Wrappers {

  datatype Option<+T> = None | Some(value: T)

  datatype Result<+R, +E> = Ok(value: R) | Err(error: E)
}
