/** Optional values: `None` stands for JavaScript's `undefined` (an absent
    argument, a missing property, an index past the end of an array). */
module Wrappers {

  datatype Option<+T> = None | Some(value: T) {

    /** The value, or `default` when absent (the `x === undefined ? d : x` idiom). */
    function GetOr(default: T): T {
      match this
      case Some(v) => v
      case None => default
    }
  }
}
