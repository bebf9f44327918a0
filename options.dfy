/** The optional value used for nullable fields (`T | null`, `field?: T`) and for
    partial updates. */
module Options {
  datatype Option<+T> = None | Some(value: T) {
    /** The carried value, or `default` when there is none. */
    function GetOr(default: T): T {
      match this
      case Some(v) => v
      case None => default
    }
  }
}
