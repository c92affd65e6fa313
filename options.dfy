/** The optional value used wherever the Python code holds a value or `None`. */
module Options {

  datatype Option<+T> = None | Some(value: T) {

    /** The held value, or `default` when there is none (Python's `d.get(k, default)` shape). */
    function GetOr(default: T): T {
      match this
      case Some(v) => v
      case None => default
    }
  }
}
