/** Optional values: JavaScript's `null`/`undefined` next to a present value. */
module Wrappers {

  datatype Option<T> = None | Some(value: T) {

    /** The value if present, or `default` (the `||` / `??` fallback of the source). */
    function GetOr(default: T): T
    {
      match this
      case Some(v) => v
      case None => default
    }
  }
}
