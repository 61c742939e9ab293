/** Optional values: a missing dictionary key, a `None` argument. */
module Wrappers {

  datatype Option<+T> = None | Some(value: T) {

    /** The value, or `default` when it is missing (Python's `d.get(key, default)`). */
    function GetOr(default: T): T {
      match this
      case Some(v) => v
      case None => default
    }
  }

  /** Python truthiness of an optional number: `None` and `0` are false. */
  predicate Truthy(x: Option<real>) {
    x.Some? && x.value != 0.0
  }
}
