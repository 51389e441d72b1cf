/** Small value types shared by every module. */
module Support {

  const MAX_U64: int := 18_446_744_073_709_551_615

  datatype Option<+T> = None | Some(value: T)

  datatype Result<+T, +E> = Ok(value: T) | Err(error: E)
}
