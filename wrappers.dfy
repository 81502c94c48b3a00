/** Optional values: the optional fields of the client's request types and
    the `Todo | null` payload of its responses. */
module Wrappers {

  datatype Option<+T> = None | Some(value: T) {

    /** The value if present, the default otherwise (the `x || default` idiom). */
    function GetOr(default: T): T
    {
      match this
      case Some(v) => v
      case None => default
    }
  }
}
