/** Option and Result, the two wrapper types of the Rust standard library that
    the engine uses: `Option` for the optional amount of a record and for map
    lookups, `Result` for every operation that can fail. */
module Results {

  datatype Option<+T> = None | Some(value: T)

  datatype Result<+T, +E> = Ok(value: T) | Err(error: E)
}
