/** Option and Result: the null/undefined returns and the thrown errors of the source. */
module Wrappers {

  /** `None` stands for JavaScript's `null` (or Python's `None`) where a value may be missing. */
  datatype Option<+T> = None | Some(value: T) {
    function GetOr(default: T): T {
      match this
      case Some(v) => v
      case None => default
    }
  }

  /** `Err` stands for an exception that the source throws (or raises) and does not catch. */
  datatype Result<+T, +E> = Ok(value: T) | Err(error: E)
}
