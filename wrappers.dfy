/** Optional values: JavaScript's `undefined`/`null`, and the "not found" of
    `findIndex`, `Map.get` and `String.prototype.match`. */
module Wrappers {

  datatype Option<+T> = None | Some(value: T) {

    /** The value, or `default` when absent (JavaScript's `x || default` on a
        defined, non-falsy value). */
    function GetOr(default: T): T {
      match this
      case Some(v) => v
      case None => default
    }
  }
}
