/** The conventional Some/None datatype, standing for Python's `None` or a value. */
module Options {

  datatype Option<+T> = None | Some(value: T) {

    /** The value held in Some, or `default` when None (Python's `dict.get(key, default)`). */
    function GetOr(default: T): T {
      match this
      case Some(v) => v
      case None => default
    }
  }
}
