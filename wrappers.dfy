/** Optional values: TypeScript's `field?: T` and `T | undefined`. */
module Wrappers {

  datatype Option<+T> = None | Some(value: T) {

    /** `x ?? default`, and also `x || default` when no present value is falsy. */
    function GetOr(default: T): T {
      match this
      case Some(v) => v
      case None => default
    }
  }
}
