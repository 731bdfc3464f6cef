/** The optional result used wherever the source returns a value or `null`. */
module Wrappers {

  /** `None` stands for the source's `null`; `Some(value)` for a present result. */
  datatype Option<+T> = None | Some(value: T)
}
