/** Optional values and results shared by every module of the model. */
module Optional {
  /** A value that may be absent: `null`/`undefined` in TypeScript, `None` in Python. */
  datatype Option<T> = None | Some(value: T) {
    function GetOr(default: T): T {
      if Some? then value else default
    }
  }

  /** The outcome of an operation that either returns a value or throws an error. */
  datatype Result<T, E> = Ok(value: T) | Err(error: E) {
    predicate IsOk() { Ok? }
  }
}
