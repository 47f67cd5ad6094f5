/** The two result shapes the rest of the project shares. */
module Wrappers {
  datatype Option<+T> = None | Some(value: T)

  /** A Python call either returns or raises; why it raised never decides what happens next. */
  datatype Result<+T> = Ok(value: T) | Err
}
