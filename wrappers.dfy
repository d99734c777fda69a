/** The optional value used wherever the source returns `None` or a value. */
module Wrappers {

  datatype Option<T> = None | Some(value: T) {

    /** The wrapped value, or `default` when there is none (Python's `x or default`). */
    function GetOr(default: T): T {
      if Some? then value else default
    }
  }
}
