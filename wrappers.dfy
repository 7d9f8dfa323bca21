/** The optional value used for Python's `Optional[str]` and for a lookup that may fail. */
module Wrappers {

  datatype Option<+T> = None | Some(value: T)
}
