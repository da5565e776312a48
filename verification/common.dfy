/** Optional values and fallible results shared by every module of the gateway model. */
module Common {

  /** A value that may be absent: Ruby's `nil` versus a present value. */
  datatype Option<T> = None | Some(value: T) {
    /** Ruby's `x || default` for a value that is never `false`. */
    function GetOr(default: T): T {
      match this
      case Some(v) => v
      case None => default
    }
  }

  /** The outcome of a step that may raise: `Err` carries the exception's description. */
  datatype Result<T> = Ok(value: T) | Err(error: string)

  /** One entry of a record's `errors` collection: the attribute and its message. */
  datatype FieldError = FieldError(field: string, message: string)

  /** A channel's configuration hash: an absent key reads as nil. */
  function Lookup(configuration: map<string, string>, key: string): Option<string>
  {
    if key in configuration then Some(configuration[key]) else None
  }
}
