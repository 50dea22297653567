/** Optional values and results with an error, shared by every module of the model. */
module Wrappers {

  datatype Option<T> = None | Some(value: T) {
    /** The wrapped value, or `default` when there is none. */
    function GetOr(default: T): T {
      match this
      case Some(v) => v
      case None => default
    }

    /** The wrapped value as a one-element sequence, or the empty sequence. */
    function ToSeq(): (s: seq<T>)
      ensures |s| == (if Some? then 1 else 0)
      ensures Some? ==> s[0] == value
    {
      match this
      case Some(v) => [v]
      case None => []
    }
  }

  datatype Result<T, E> = Ok(value: T) | Err(error: E)
}
