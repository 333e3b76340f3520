/** Option and Result, for Python's `None` and for raised exceptions. */
module Wrappers {

  datatype Option<+T> = None | Some(value: T)

  /** `Err` carries the text of the exception the Python code raises (`str(e)`). */
  datatype Result<+T> = Ok(value: T) | Err(error: string)
}
