/** The optional-value datatype used for Python's `Optional[...]` parameters. */
module Wrappers {

  /** `None` stands for Python's `None`; `Some(v)` for a present value `v`. */
  datatype Option<+T> = None | Some(value: T)
}
