/** The optional value used throughout the model for Python's `None`. */
module Wrappers {

  datatype Option<T> = None | Some(value: T)
  {
    /** The contained value, or `default` when there is none (Python's `x or default` on a present value). */
    function GetOr(default: T): T
    {
      match this
      case None => default
      case Some(v) => v
    }
  }
}
