/** Optional values: a JSON field or a query result that may be absent (`undefined` / `null`). */
module Wrappers {

  datatype Option<+T> = None | Some(value: T) {

    /** The wrapped value, or `default` when absent (the `x ?? default` / `x || default` idiom on non-falsy values). */
    function GetOr(default: T): T {
      match this
      case Some(v) => v
      case None => default
    }
  }
}
