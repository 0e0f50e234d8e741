/** The optional value used wherever a JavaScript lookup can come back empty
    (`Map.prototype.get` of a missing key, an Invalid Date, a field that was never set). */
module Options {

  datatype Option<+T> = None | Some(value: T) {

    /** The value in `Some`, or `default` for `None` (JavaScript's `x ?? default`). */
    function GetOr(default: T): T {
      match this
      case Some(v) => v
      case None => default
    }
  }
}
