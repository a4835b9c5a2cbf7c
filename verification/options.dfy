/** The `null`-or-value shape that the component's state and the response fields share. */
module Options {

  datatype Option<+T> = None | Some(value: T) {

    /** The JavaScript `??` operator: the value, or `default` when it is null or undefined. */
    function GetOr(default: T): T
    {
      match this
      case Some(v) => v
      case None => default
    }
  }
}
