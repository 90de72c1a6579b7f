/** Result types shared by the other modules. */
module Wrappers {
  datatype Option<+T> = None | Some(value: T)

  /** `Err` stands for a thrown JavaScript exception. */
  datatype Result<+T, +E> = Ok(value: T) | Err(error: E)
}
