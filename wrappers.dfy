/** The optional value used for every field the source reads with `?.`
    and for every value that may be `undefined` or `null`. */
module Wrappers {

  datatype Option<+T> = None | Some(value: T) {

    /** The wrapped value, or `default` when there is none (`x ?? d`). */
    function GetOr(default: T): T {
      match this
      case Some(v) => v
      case None => default
    }
  }

  /** The outcome of a render that may throw: the view, or the error. */
  datatype Rendering<+T> = Rendered(view: T) | Throws(error: string)
}
