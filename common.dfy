/** Optional values and fallible results, shared by every module of the model. */
module Common {

  /** A value that may be absent: JavaScript's `null`/`undefined`, or a missing file. */
  datatype Option<+T> = None | Some(value: T)

  /** The outcome of a computation that may raise; `Err` carries the exception's message. */
  datatype Result<+T> = Ok(value: T) | Err(message: string)
}
