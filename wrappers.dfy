/** Option and Result for absent values (`null`) and settled promises. */
module Wrappers {

  /** A value that may be absent: `T | null` in the dashboard's types. */
  datatype Option<+T> = None | Some(value: T)

  /** How a promise settles: resolved with a value, or rejected with an error message. */
  datatype Result<+T> = Ok(value: T) | Err(error: string)
}
