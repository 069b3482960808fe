/** Optional values and results with an error message, used for the
    JavaScript `undefined`/`null` values and thrown errors of the model. */
module Wrappers {

  datatype Option<+T> = None | Some(value: T)

  /** The outcome of an operation that may throw: its value, or the
      message of the error it threw. */
  datatype Result<+T> = Ok(value: T) | Err(message: string)
}
