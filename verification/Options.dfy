/** The Some/None datatype shared by every model: a missing map entry, a null field, an absent file. */
module Options {

  datatype Option<+T> = None | Some(value: T)

  /** A computed value or the error the source throws. */
  datatype Result<+T, +E> = Ok(value: T) | Err(error: E)
}
