/** Optional values: JavaScript's `null`/`undefined` on one side, a value on the other. */
module Wrappers {

  datatype Option<+T> = None | Some(value: T) {

    /** `x || fallback` for an optional value that is truthy whenever present. */
    function GetOr(fallback: T): T {
      match this
      case Some(v) => v
      case None => fallback
    }
  }
}
