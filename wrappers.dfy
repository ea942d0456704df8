// Shared optional-value wrapper used by every module of the model.
// `None` stands for Python's `None` (or a missing dictionary key, or a
// raised exception where a module says so).
module Wrappers {
  datatype Option<T> = None | Some(value: T)
  {
    function GetOr(default: T): T
    {
      match this
      case None => default
      case Some(v) => v
    }
  }
}
