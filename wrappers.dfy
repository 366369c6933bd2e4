/** Failure-carrying result types shared by the decoder, the drum scanner and the engine. */
module Wrappers {

  datatype Option<+T> = None | Some(value: T)

  /** The outcome of an operation that the source aborts by throwing. */
  datatype Result<+T, +E> = Ok(value: T) | Err(error: E)
}
