/** The two failure-carrying types the other modules share. */
module Wrappers {
  datatype Option<+T> = None | Some(value: T)

  /** `Err` stands for any non-nil error of the source; its text is not modelled. */
  datatype Result<+T> = Ok(value: T) | Err
}
