/** Small shared vocabulary: an optional value, used for the fields that the
    TypeScript source declares with `?` or `| null`. */
module Basics {

  datatype Option<+T> = None | Some(value: T) {

    /** The value, or `default` when absent (the source's `x || default` for
        values whose only falsy form is absence). */
    function GetOr(default: T): T
    {
      match this
      case Some(v) => v
      case None => default
    }
  }
}
