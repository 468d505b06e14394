/** The optional value used throughout the model: `None` stands for a
    JavaScript `undefined` (or, for a parsed number, `NaN`). */
module Wrappers {

  datatype Option<+T> = None | Some(value: T) {

    /** The carried value, or `default` when there is none. */
    function GetOr(default: T): T {
      match this
      case Some(v) => v
      case None => default
    }
  }
}
