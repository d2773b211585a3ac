/** Option and Result wrappers used throughout the model.
    `Option` stands for a Java reference that may be `null`;
    `Result` stands for a call that may throw. */
module Wrappers {

  /** `None` plays the part of a `null` return. */
  datatype Option<+T> = None | Some(value: T)

  /** `Err` plays the part of a thrown exception. */
  datatype Result<+T, +E> = Ok(value: T) | Err(error: E)
}
