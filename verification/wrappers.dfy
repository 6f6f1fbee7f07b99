/** The optional-value datatype used for Python's `Optional[str]` and for parsers that may fail. */
module Wrappers {

  datatype Option<+T> = None | Some(value: T)
}
