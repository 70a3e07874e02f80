/** The optional value used wherever the dashboard's code reads something that may be absent
    (`undefined`, `null`, a missing storage key, a missing response). */
module Wrappers {

  datatype Option<+T> = None | Some(value: T) {

    /** The value, or `default` when absent: the `x ?? default` of the source. */
    function GetOr(default: T): T {
      match this
      case Some(v) => v
      case None => default
    }
  }
}
