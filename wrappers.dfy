/** Option and Result: the absent value and the raised exception of the modelled Python code. */
module Wrappers {

  datatype Option<+T> = None | Some(value: T) {

    /** The value, or `default` when absent (Python's `dict.get(key, default)` and `next(gen, default)`). */
    function GetOr(default: T): T
    {
      match this
      case Some(v) => v
      case None => default
    }
  }

  /** `Err` stands for a Python exception that ends the computation. */
  datatype Result<+T, +E> = Ok(value: T) | Err(error: E)
}
