/** The optional-value wrapper used for Python's `Optional[...]` fields. */
module Wrappers {
  datatype Option<+T> = None | Some(value: T)
}
