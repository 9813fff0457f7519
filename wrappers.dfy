/** Optional values and success-or-error results, the shapes the gateway's
    `undefined` fields and thrown errors take in this model. */
module Wrappers {

  /** A value that may be absent (`undefined` in the gateway). */
  datatype Option<+T> = None | Some(value: T)

  /** The outcome of a command handler: a response payload, or the error it throws. */
  datatype Result<+R, +E> = Ok(value: R) | Err(error: E)
}
