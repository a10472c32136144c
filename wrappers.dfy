/** An optional value. */
module Wrappers {

  /** `None` stands for a missing file, a missing JSON key or a call that raised. */
  datatype Option<+T> = None | Some(value: T)
}
