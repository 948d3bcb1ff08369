/** Option and Result, used for Python's None and for operations that raise. */
module Base {

  datatype Option<T> = None | Some(value: T) {
    /** The wrapped value, or the default when there is none. */
    function GetOr(default: T): T {
      if Some? then value else default
    }
  }

  /** Ok carries the value an operation returns, Err what it raises. */
  datatype Result<T, E> = Ok(value: T) | Err(error: E)
}
