/** The optional value used for every nullable or omittable field of the model. */
module Wrappers {

  /** A value that may be absent: `null`/`undefined` in the source are both None. */
  datatype Option<+T> = None | Some(value: T) {

    /** The value, or the given default when absent (the source's `??`). */
    function GetOr(default: T): T {
      match this
      case Some(v) => v
      case None => default
    }
  }
}
