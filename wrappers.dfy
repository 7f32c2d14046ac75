/** Option and Result values for lookups that can fail and tools that answer with an error. */
module Wrappers {

  datatype Option<+T> = None | Some(value: T)

  /** A tool's answer: a value, or the text of the `{"error": ...}` record it returns instead. */
  datatype Result<+T> = Ok(value: T) | Err(message: string)
}
