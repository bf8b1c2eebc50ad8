/** Failure-compatible wrappers used throughout the model: `Option` stands for a
    C# reference that may be null, `Result` for a call that may throw. */
module Wrappers {

  datatype Option<+T> = None | Some(value: T)

  datatype Result<+T, +E> = Ok(value: T) | Err(error: E)
}
