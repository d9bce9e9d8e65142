/** Small failure-carrying datatypes shared by the model. */
module Wrappers {

  /** A value that may be absent: JavaScript's `undefined` is `None`. */
  datatype Option<+T> = None | Some(value: T)

  /** The settled state of a promise: fulfilled with a value, or rejected with an error. */
  datatype Result<+R, +E> = Ok(value: R) | Err(error: E)
}
