/** A value that may be absent: Python's `Optional[...]`, with `None` for a missing value. */
module Wrappers {

  datatype Option<+T> = None | Some(value: T)

}
