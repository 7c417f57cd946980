/** The optional value used throughout the model: `None` stands for JavaScript's
    NaN, for an empty date string or for a result not computed yet. */
module Wrappers {

  datatype Option<+T> = None | Some(value: T) {

    /** The wrapped value, or `default` when there is none. */
    function GetOr(default: T): T {
      match this
      case Some(v) => v
      case None => default
    }
  }
}
