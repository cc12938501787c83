/** `undefined` or a value: the model of an absent JavaScript argument or property. */
module Options {

  datatype Option<+T> = None | Some(value: T) {

    /** The value, or `default` when absent: a JavaScript default parameter `(state = default) => ...`. */
    function GetOr(default: T): T {
      match this
      case Some(v) => v
      case None => default
    }
  }
}
