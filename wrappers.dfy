/** Option and Result: Python's `None` and the exceptions a call may raise. */
module Wrappers {

  /** A value that may be absent: Python's `None` or a missing dictionary key. */
  datatype Option<+T> = None | Some(value: T) {

    /** The value, or `default` when absent (`d.get(k, default)`). */
    function GetOr(default: T): T {
      match this
      case Some(v) => v
      case None => default
    }
  }

  /**
   * The outcome of a Python call that may raise: `Ok` holds the returned value, `Err` the text
   * of the exception (`str(e)`).
   */
  datatype Result<+T> = Ok(value: T) | Err(error: string)
}
