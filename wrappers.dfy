/** Optional values and results with an error, for JavaScript's `undefined` and thrown errors. */
module Wrappers {

  /** `None` stands for JavaScript's `undefined` (an absent field or argument). */
  datatype Option<+T> = None | Some(value: T)

  /** `Err` stands for an error thrown by a resolver; `Ok` for the value it returns. */
  datatype Result<+T, +E> = Ok(value: T) | Err(error: E)
}
