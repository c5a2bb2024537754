/** Option and Result, used for absent values, errors passed to callbacks and failed assertions. */
module Wrappers {

  datatype Option<+T> = None | Some(value: T)

  /** A computation that either returns a value or stops on a failed `assert`, with its message. */
  datatype Result<+T> = Ok(value: T) | AssertionFailed(message: string)

  function Min(a: int, b: int): int { if a < b then a else b }

  function Max(a: int, b: int): int { if a < b then b else a }
}
