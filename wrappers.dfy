/** The optional-value type shared by the modules of this model. */
module Wrappers {

  /** A value that may be absent; `None` stands for JavaScript's `null`/`undefined`
      where the source only distinguishes "present" from "missing". */
  datatype Option<+T> = None | Some(value: T)
}
