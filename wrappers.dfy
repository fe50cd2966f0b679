/** Optional values, standing for the source's `undefined` / `null` alternatives. */
module Wrappers {

  datatype Option<+T> = None | Some(value: T) {

    /** The value if there is one, otherwise `default` (the `??` operator). */
    function GetOr(default: T): T {
      match this
      case Some(v) => v
      case None => default
    }
  }
}
