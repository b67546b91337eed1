/** Optional values and results, used wherever the Python code returns None or raises. */
module Wrappers {

  datatype Option<+T> = None | Some(value: T)

  /** The outcome of a step that may raise: its value, or the text of the exception. */
  datatype Result<+R> = Ok(value: R) | Err(error: string)
}
