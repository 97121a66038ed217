/** Absent-capable values and outcomes shared by the whole model. */
module Wrappers {

  /** `None` stands for JavaScript's `null`/`undefined`, or for NaN where a number is meant. */
  datatype Option<+T> = None | Some(value: T)

  /** The outcome of an operation that either returns or throws/rejects. */
  datatype Result<+T, +E> = Ok(value: T) | Err(error: E)
}
