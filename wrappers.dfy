/** The optional value used wherever the bot's JavaScript returns `null`/`undefined` or a regular
    expression fails to match. */
module Wrappers {

  datatype Option<+T> = None | Some(value: T) {

    /** The wrapped value, or `default` for `None`. */
    function GetOr(default: T): T {
      match this
      case Some(v) => v
      case None => default
    }
  }
}
