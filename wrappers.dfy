/** The conventional optional value, used wherever the source has a value that may be missing
    (an absent JSON field, `null`, `undefined`, or a `find` that found nothing). */
module Wrappers {

  datatype Option<+T> = None | Some(value: T) {

    /** The value, or `default` when there is none (JavaScript's `x || default` on a present non-zero number). */
    function GetOr(default: T): T {
      match this
      case Some(v) => v
      case None => default
    }
  }
}
