/** Optional values and the outcome of a calculation that may throw. */
module Results {

  /** An optional value, as for a TypeScript field declared `strike?: number`. */
  datatype Option<+T> = None | Some(value: T)

  /** The value of a call that either returns normally or throws an `Error` with a message. */
  datatype Result<+T> = Ok(value: T) | Err(message: string)
}
