/** Failure-carrying values shared by every module of the model. */
module Wrappers {

  datatype Option<+T> = None | Some(value: T)

  /** Rust's `Result<T, E>`. */
  datatype Result<+T, +E> = Ok(value: T) | Err(error: E)

  /** How a piece of Rust code ended: it returned a value, or it panicked. The payload is the
      panic message when the panic carried a `String` or `&str`, and `None` otherwise. */
  datatype Completion<+T> = Returned(value: T) | Panicked(payload: Option<string>)

  /** A closure run against a thread-local cell: the state the cell was left in, and how the closure ended. */
  datatype Run<+C, +T> = Run(cell: C, completion: Completion<T>)

  /** The message of the panic raised by `Option::unwrap` on `None`. */
  const UNWRAP_NONE: string := "called `Option::unwrap()` on a `None` value"

  /** The message of the panic raised by `Result::unwrap` on `Err(e)`, given `e`'s debug text. */
  function UnwrapErr(debug: string): (m: string)
    ensures |m| > |debug|
  {
    "called `Result::unwrap()` on an `Err` value: " + debug
  }
}
