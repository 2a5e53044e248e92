/** Option and Result, the two wrappers the model uses for JavaScript's
 *  `null` and for thrown errors. */
module Wrappers {

  /** `None` stands for JavaScript's `null` (or `undefined`) where a value is optional. */
  datatype Option<+T> = None | Some(value: T)

  /** The outcome of an operation that may throw: `Err` carries what was thrown. */
  datatype Result<+T, +E> = Ok(value: T) | Err(error: E)
}
