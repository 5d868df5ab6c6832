/** The optional values that stand for Python's `None` in the model. */
module Wrappers {

  datatype Option<+T> = None | Some(value: T)
}
