/** The conventional optional value, used wherever the daemon writes an empty string or None. */
module Options {
  datatype Option<+T> = None | Some(value: T) {
    function GetOr(default: T): (r: T) {
      match this
      case Some(v) => v
      case None => default
    }
  }
}
