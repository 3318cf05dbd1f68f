/** A value that may be missing: the position of a matching record, or None. */
module Wrappers {

  datatype Option<+T> = None | Some(value: T)
}
