/** The optional value used throughout the model for Python's `None`-or-value. */
module Options {

  datatype Option<+T> = None | Some(value: T) {

    /** Python's `x or default` / `dict.get(key, default)` on an optional value. */
    function GetOr(default: T): T {
      match this
      case Some(v) => v
      case None => default
    }
  }
}
