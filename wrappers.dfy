/** Helper datatypes shared by the model. */
module Wrappers {

  /** A value that may be absent: an optional property of a JavaScript object. */
  datatype Option<+T> = None | Some(value: T)

  /** The outcome of a promise: fulfilled with a value or rejected with a reason. */
  datatype Result<+T, +E> = Ok(value: T) | Err(error: E)
}
