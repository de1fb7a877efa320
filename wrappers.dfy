/** Option and Result, the two outcome shapes the client code uses:
    an unset JavaScript field is `None`, a rejected promise is `Err`. */
module Wrappers {

  datatype Option<+T> = None | Some(value: T)

  /** A settled promise: resolved with a value, or rejected with the message
      the source passes to `deferred.reject`. */
  datatype Result<+T> = Ok(value: T) | Err(error: string)
}
