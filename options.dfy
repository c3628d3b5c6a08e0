/** An optional value: stands for JavaScript's `null`/`undefined` next to a present value. */
module Options {

  datatype Option<+T> = None | Some(value: T) {

    /** The value when present, `default` otherwise. */
    function GetOr(default: T): T {
      match this
      case Some(v) => v
      case None => default
    }
  }
}
