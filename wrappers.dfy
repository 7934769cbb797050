/** Optional values: an element a query may not find, an attribute that may be absent. */
module Wrappers {
  datatype Option<T> = None | Some(value: T)

  /** The value when present, otherwise the fallback. */
  function GetOr<T>(o: Option<T>, fallback: T): T {
    match o
    case Some(v) => v
    case None => fallback
  }
}
