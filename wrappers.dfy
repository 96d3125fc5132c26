/** A value that may be absent, for lookups that find no row. */
module Wrappers {

  datatype Option<+T> = None | Some(value: T)
}
