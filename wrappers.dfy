/** Option and Result, the two shapes every handler below returns. */
module Wrappers {

  /** A value that may be absent: JavaScript's `null`/`undefined`, or `NaN` for numbers. */
  datatype Option<+T> = None | Some(value: T)

  /** The outcome of an asynchronous call: the resolved value or the rejection's message. */
  datatype Result<+T> = Ok(value: T) | Err(message: string)
}
