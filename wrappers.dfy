/** The Option datatype used wherever a PHP value may be null, unset or `false`. */
module Wrappers {

  datatype Option<+T> = None | Some(value: T) {

    /** PHP's null-coalescing `??`: the value if it is set, the default otherwise. */
    function GetOr(default: T): T {
      match this
      case Some(v) => v
      case None => default
    }
  }
}
