/** Null-able values, results and outcomes: the model's stand-ins for C#/JS `null`
    and for exceptions thrown by the source. */
module Wrappers {

  /** A C# `T?` or a JS value that may be `null`/`undefined`. */
  datatype Nullable<+T> = Null | Some(value: T)

  /** The result of an operation that either returns a value or throws. */
  datatype Result<+T, +E> = Ok(value: T) | Err(error: E)

  /** The result of a `void` operation that may throw. */
  datatype Outcome<+E> = Pass | Fail(error: E)
}
