/** The Some/None datatype used for JavaScript's `undefined`: a field or a
    lookup that is absent is `None`. Strict equality of two absent values is
    `true` in JavaScript, exactly as `None == None` is here. */
module Wrappers {

  datatype Option<+T> = None | Some(value: T) {

    /** The value, or `default` when absent (JavaScript's `x || default` on
        values that are never falsy when present). */
    function GetOr(default: T): T {
      match this
      case Some(v) => v
      case None => default
    }
  }
}
