/** A value or the reason an operation was refused (the original raises). */
module Results {
  datatype Result<+T> = Ok(value: T) | Err(reason: string)

  datatype Option<+T> = None | Some(value: T)
}
