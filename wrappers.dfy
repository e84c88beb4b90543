/** A value that may be absent (JavaScript null/undefined), and an outcome that may be an error. */
module Wrappers {

  datatype Option<+T> = None | Some(value: T)

  /** The result of an operation that throws in the source; `Err` carries the thrown message. */
  datatype Result<+T> = Ok(value: T) | Err(message: string)
}
