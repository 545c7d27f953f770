/** A value that may be absent: a missing dictionary key, a NULL column, an unset
    environment variable. */
module Optional {

  datatype Option<+T> = None | Some(value: T) {

    /** The carried value, or `default` when absent (Python's `d.get(k, default)`
        and `x or default` for the values this model uses). */
    function GetOr(default: T): (r: T)
      ensures Some? ==> r == value
      ensures None? ==> r == default
    {
      match this
      case Some(v) => v
      case None => default
    }
  }
}
