/** Small failure-carrying datatypes shared by the scraper and the tokeniser models. */
module Common {

  /** Python's "a value or None". */
  datatype Option<T> = None | Some(value: T)

  /** A computation that either produces a value or raises an error. */
  datatype Result<T, E> = Ok(value: T) | Err(error: E)
}
