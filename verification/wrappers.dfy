/** The optional-value type used for the rules' "maybe an issue" results. */
module Wrappers {

  /** `None` stands for Python's `None`: a rule that returns nothing. */
  datatype Option<+T> = None | Some(value: T)
}
