/** Optional values, for Swift's `Optional` and for the absent results of searches, and `Abs`. */
module Wrappers {
  /** The magnitude of an integer. */
  function Abs(x: int): nat {
    if x < 0 then -x else x
  }

  datatype Option<+T> = None | Some(value: T) {
    /** Swift's `??`: the wrapped value, or the default when absent. */
    function GetOr(default: T): T {
      match this
      case Some(v) => v
      case None => default
    }
  }
}
