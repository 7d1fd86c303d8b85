/** The wrapper types shared by every module: an identifier, a value that may
    be missing, and a call that returns a value or raises. */
module Outcomes {
  /** An identifier: only ever compared with others. */
  datatype Id = Id(text: string)

  datatype Option<+T> = None | Some(value: T)

  datatype Result<+T> = Ok(value: T) | Err
}
