/** The optional-value datatype shared by all modules: Python's `None`,
    JavaScript's `undefined`/`null` and SQL's NULL all become `None`. */
module Wrappers {

  datatype Option<+T> = None | Some(value: T) {

    /** The value, or `default` when there is none (Python `x or d` on a
        value that is never falsy, JavaScript `x ?? d`). */
    function GetOr(default: T): T
    {
      match this
      case Some(v) => v
      case None => default
    }
  }
}
