/** Option and Result values used for the driver's error paths. */
module Wrappers {

  datatype Option<+T> = None | Some(value: T)

  /** `Err` stands for an exception the driver raises before anything is sent. */
  datatype Result<+R, +E> = Ok(value: R) | Err(error: E)
}
