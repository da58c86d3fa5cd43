// Option and Result: the two ways the source reports "nothing here" and
// "this call throws".
module Wrappers {
  datatype Option<T> = None | Some(value: T)
  {
    function GetOr(default: T): T
    {
      match this
      case None => default
      case Some(v) => v
    }
  }

  /** An operation that either returns a value or throws an Error with a message. */
  datatype Result<T> = Ok(value: T) | Err(message: string)
}
