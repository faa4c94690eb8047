/** Optional values: JavaScript's `undefined` and `null` both become None. */
module Wrappers {

  datatype Option<+T> = None | Some(value: T) {

    /** The value, or `default` when absent: JavaScript's `x ?? default`. */
    function GetOr(default: T): T {
      match this
      case Some(v) => v
      case None => default
    }

    /** `this ?? other` where both sides are optional. */
    function Or(other: Option<T>): Option<T> {
      if Some? then this else other
    }
  }
}
