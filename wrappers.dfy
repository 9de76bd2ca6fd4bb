/** A value that may be absent: an optional record field, an unset
    environment variable, a missing query parameter. */
module Wrappers {

  datatype Option<+T> = None | Some(value: T)

}
