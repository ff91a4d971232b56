/** Option and Result, the two failure-carrying types the model uses for
    pandas' missing values (NaN) and for Python's exceptions. */
module Wrappers {

  /** A value that may be missing: `None` stands for NaN / None in a column. */
  datatype Option<+T> = None | Some(value: T) {
    function GetOr(default: T): T {
      match this
      case Some(v) => v
      case None => default
    }
  }

  /** The outcome of an operation that may raise. */
  datatype Result<+R, +E> = Ok(value: R) | Err(error: E)
}
