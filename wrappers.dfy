/** Option and Result, used for the values the booking form may lack and for its verdicts. */
module Wrappers {

  /** A value that may be absent (`undefined` or `null` in the component). */
  datatype Option<+T> = None | Some(value: T)

  /** Either an accepted value or the reason it was refused. */
  datatype Result<+T, +E> = Ok(value: T) | Err(error: E)
}
