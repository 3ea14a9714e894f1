/** Optional values and error-carrying results shared by the other modules. */
module Wrappers {

  /** A value that may be absent: JavaScript's `undefined` from `Array.prototype.find`,
      a missing role mention, a guild without configuration. */
  datatype Option<+T> = None | Some(value: T)

  /** Either a value or the text of the user-facing error reply the bot sends instead. */
  datatype Result<+T> = Ok(value: T) | Err(message: string)
}
