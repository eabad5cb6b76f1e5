/** Optional values and results with an error case, shared by every module. */
module Wrappers {
  datatype Option<T> = None | Some(value: T)
  {
    /** The wrapped value, or `default` when there is none (Swift's `??`). */
    function GetOr(default: T): T
    {
      match this
      case Some(v) => v
      case None => default
    }
  }

  datatype Result<T, E> = Ok(value: T) | Err(error: E)
}
