/** Types every other module shares. */
module Common {

  /** A ULID. Only its total order is used (cursor paging), so a natural number stands for it. */
  type Id = nat

  /** Milliseconds on the one clock that the databases and the services are assumed to share. */
  type Time = int

  datatype Option<+T> = None | Some(value: T)

  /** The outcome of a call that may throw. */
  datatype Result<+T> = Ok(value: T) | Err(error: string)

  function Min(a: int, b: int): int {
    if a <= b then a else b
  }

  function Max(a: int, b: int): int {
    if a <= b then b else a
  }
}
