/** Optional values, standing for Python's `None` or a missing dictionary key. */
module Wrappers {
  datatype Option<+T> = None | Some(value: T)
  {
    function GetOr(default: T): T
    {
      match this
      case Some(v) => v
      case None => default
    }
  }

  /** Python truthiness of an optional string: `None` and `""` are falsy. */
  predicate Present(o: Option<string>)
  {
    o.Some? && o.value != ""
  }
}
