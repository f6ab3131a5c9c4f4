/** Optional values and results with an error, used wherever the source
    returns `null`/`undefined` or answers with an HTTP error status. */
module Wrappers {

  datatype Option<+T> = None | Some(value: T) {
    function GetOr(default: T): T {
      match this
      case Some(v) => v
      case None => default
    }

    /** The value as a list of at most one element. */
    function ToSeq(): (r: seq<T>)
      ensures |r| <= 1 && (Some? <==> |r| == 1) && (Some? ==> r[0] == value)
    {
      match this
      case Some(v) => [v]
      case None => []
    }
  }

  datatype Result<+T, +E> = Ok(value: T) | Err(error: E)
}
