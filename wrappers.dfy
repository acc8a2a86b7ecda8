/** The optional-value datatype shared by the other modules. */
module Wrappers {

  /** `None` stands for Python's `None` and for a failed conversion. */
  datatype Option<+T> = None | Some(value: T)
}
