/** Failure-compatible wrappers shared by every module of the model. */
module Wrappers {

  datatype Option<+T> = None | Some(value: T)

  /** `Err` stands for a JavaScript `throw new Error(message)`. */
  datatype Result<+T> = Ok(value: T) | Err(message: string)
}
