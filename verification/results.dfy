/** Option and Result datatypes used for lookups and for the add-to-cart outcome. */
module Results {

  /** A value that may be missing, as `Array.prototype.find` returns `undefined` when nothing matches. */
  datatype Option<+T> = None | Some(value: T)

  /** Either the new value or the kind of error that rejected the request. */
  datatype Result<+T, +E> = Ok(value: T) | Err(error: E)
}
