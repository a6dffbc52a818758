/** Optional values, standing in for Python's `None`. */
module Wrappers {
  datatype Option<T> = None | Some(value: T)
  {
    /** The value, or `default` when there is none (Python's `dict.get(key, default)`). */
    function GetOr(default: T): (r: T)
      ensures Some? ==> r == value
      ensures None? ==> r == default
    {
      match this
      case Some(v) => v
      case None => default
    }
  }
}
