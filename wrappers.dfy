/** Optional values: JavaScript's `undefined`/`null` (and, where the source tests
    truthiness, the empty string or an unparsable value) become `None`. */
module Wrappers {

  datatype Option<+T> = None | Some(value: T) {

    /** The value, or `default` when there is none (JavaScript's `x ?? d`). */
    function GetOr(default: T): T {
      match this
      case Some(v) => v
      case None => default
    }
  }
}
