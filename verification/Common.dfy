/** Failure-carrying results shared by the modules of this project. */
module Common {

  datatype Option<+T> = None | Some(value: T)

  /** A call returns a value, a Go error, or panics (an index out of range or a nil dereference). */
  datatype Result<+T> = Ok(value: T) | Error | Panic
}
