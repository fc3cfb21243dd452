/** Optional values and the success/failure outcome of a call into the hosted store. */
module Results {

  /** A value that may be absent (`undefined` / `null` in the views). */
  datatype Option<+T> = None | Some(value: T)

  /** What a store call comes back with: its data, or the error message it raised. */
  datatype Outcome<+T> = Ok(data: T) | Err(message: string)
}
