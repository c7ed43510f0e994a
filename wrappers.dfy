/** Optional values and results of fallible operations, shared by every screen model. */
module Wrappers {

  /** A value that may be absent: JavaScript's `null` / `undefined` for one field. */
  datatype Option<+T> = None | Some(value: T)

  /** The outcome of a foreign asynchronous call: its payload, or the message of the error it threw. */
  datatype Result<+R> = Ok(value: R) | Err(message: string)
}
