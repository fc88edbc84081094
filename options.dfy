/** An optional value: stands for a JavaScript property that may be absent or `undefined`. */
module Options {

  datatype Option<+T> = None | Some(value: T) {

    /** The value if present, otherwise `default`, as `x || default` and option defaults do. */
    function GetOr(default: T): T {
      match this
      case Some(v) => v
      case None => default
    }
  }
}
