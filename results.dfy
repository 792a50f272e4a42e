/** Optional values and the outcome of a JavaScript call that may throw. */
module Results {

  datatype Option<+T> = None | Some(value: T)

  /** `Err` carries the message of the Error the JavaScript code throws or rejects with. */
  datatype Result<+T> = Ok(value: T) | Err(error: string)

  /** The message JavaScript gives when a property is read from `undefined`. */
  const TypeError: string := "TypeError"
}
