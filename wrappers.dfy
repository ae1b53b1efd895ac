/** A value that may be absent: stands for a Go result whose error was non-nil. */
module Wrappers {

  datatype Option<+T> = None | Some(value: T)
}
