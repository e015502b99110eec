/** Wrappers used across the model: `Option` stands for a
    nullable C# value (`decimal?`, a `string` that may be null), `Result` for a
    computation that may throw an exception carrying a message. */
module Wrappers {

  datatype Option<+T> = None | Some(value: T)

  datatype Result<+T, +E> = Success(value: T) | Failure(error: E)
}
