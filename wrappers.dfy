/** Optional values and results with an error, as used throughout the model. */
module Wrappers {
  datatype Option<T> = None | Some(value: T)
  {
    function GetOr(fallback: T): T
    {
      match this
      case None => fallback
      case Some(v) => v
    }
  }

  datatype Result<T, E> = Success(value: T) | Failure(error: E)
}
