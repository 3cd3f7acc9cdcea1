/** Option stands for a Go pointer that may be nil; Result for a Go (value, error) pair. */
module Wrappers {

  datatype Option<+T> = None | Some(value: T)
  {
    /** The value held, or `fallback` when there is none. */
    function GetOr(fallback: T): T
    {
      match this
      case Some(v) => v
      case None => fallback
    }
  }

  datatype Result<+T, +E> = Ok(value: T) | Err(error: E)
}
