/** Option and Result: the source's None values and its raised exceptions. */
module Wrappers {

  datatype Option<+T> = None | Some(value: T)

  /** `Err` stands for a Python exception; its text is the exception message. */
  datatype Result<+T> = Ok(value: T) | Err(msg: string)
}
