/** Optional values: the model's stand-in for JavaScript's `undefined` / `null`. */
module Wrappers {

  datatype Option<+T> = None | Some(value: T) {

    /** The wrapped value, or `default` when absent (JavaScript's `x ?? default`). */
    function GetOr(default: T): T {
      match this
      case Some(v) => v
      case None => default
    }
  }

  /**
   * `after` is what an object spread `{ ...before, ...patch }` leaves in one
   * field: the patch's value when it carries one, otherwise the old value.
   */
  predicate Spread<T(==)>(patch: Option<T>, before: T, after: T) {
    match patch
    case Some(v) => after == v
    case None => after == before
  }
}
