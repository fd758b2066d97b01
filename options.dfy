/** An optional value: a key that may be absent, a check that may not apply. */
module Options {

  datatype Option<T> = None | Some(value: T) {
    /** The value, or `fallback` when there is none. */
    function GetOr(fallback: T): T {
      match this
      case Some(v) => v
      case None => fallback
    }
  }
}
