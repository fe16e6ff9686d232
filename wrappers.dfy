/** Option and Result, the two failure-carrying shapes the model uses for
    Python's `None` returns and raised `ValueError`s. */
module Wrappers {

  datatype Option<+T> = None | Some(value: T) {
    /** The value, or `default` for None (Python's `dict.get(key, default)`). */
    function GetOr(default: T): T {
      match this
      case Some(v) => v
      case None => default
    }
  }

  datatype Result<+R, +E> = Ok(value: R) | Err(error: E)
}
