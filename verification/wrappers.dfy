/** Small optional-value type shared by the key tables and the client model. */
module Wrappers {

  /** A value that may be absent: the model's stand-in for a null pointer or an unmatched case. */
  datatype Option<+T> = None | Some(value: T) {

    /** The wrapped value, or `default` when there is none. */
    function GetOr(default: T): (r: T)
      ensures Some? ==> r == value
      ensures None? ==> r == default
    {
      match this
      case Some(v) => v
      case None => default
    }
  }
}
