/** Small helper datatypes shared by the other modules. */
module Wrappers {

  /** A value that may be absent: a failed `fetch`, an unset session key. */
  datatype Option<+T> = None | Some(value: T)
}
