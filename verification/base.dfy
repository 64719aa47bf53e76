/** Small shared datatypes. */
module Base {

  /** A value that may be absent: JavaScript's `null` / `undefined` / optional key. */
  datatype Option<+T> = None | Some(value: T) {

    /** The carried value, or `default` when absent. */
    function GetOr(default: T): T {
      match this
      case Some(v) => v
      case None => default
    }
  }
}
