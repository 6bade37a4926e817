/** Values shared by every module: time, optional values, results and the domain error codes. */
module Types {

  // An instant or a duration in nanoseconds, as in Go's time package.
  type Time = int

  datatype Option<+T> = None | Some(value: T)

  datatype ErrorCode = NotFound | InvalidInput | Conflict

  datatype Result<+T> = Ok(value: T) | Err(error: ErrorCode)
}
