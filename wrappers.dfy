/** Small helper datatypes shared by the server modules. */
module Wrappers {

  /** An optional value. */
  datatype Option<+T> = None | Some(value: T)
}
