/** Optional values and success/failure results shared by every layer. */
module Wrappers {

  /** `None` plays the part of Go's nil (a nil error, a nil *Task). */
  datatype Option<+T> = None | Some(value: T)

  datatype Result<+T, +E> = Ok(value: T) | Err(error: E)
}
