/** Optional values and outcomes that either succeed or fail with the
    message of a thrown JavaScript `Error`. */
module Wrappers {

  datatype Option<+T> = None | Some(value: T)

  /** Every failure in the modelled code is an `Error` whose only observable
      part is its `message`. */
  datatype Result<+T> = Ok(value: T) | Err(message: string)
}
