/** An optional value, standing for a Python attribute that may not have been set. */
module Optional {

  datatype Option<T> = None | Some(value: T) {

    /** The value if there is one, otherwise the given default. */
    function GetOr(default: T): T {
      match this
      case Some(v) => v
      case None => default
    }
  }
}
