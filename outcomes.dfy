/** Optional values and the outcome of a step that may throw. */
module Outcomes {

  /** A value that may be absent (`undefined` or `null` in the handler). */
  datatype Option<T> = None | Some(value: T)

  /** The outcome of an awaited step: a value, or the `message` of the error it threw. */
  datatype Result<T> = Ok(value: T) | Err(message: string)
}
