/** Option type for the dispatcher's "nothing found" result. */
module Wrappers {

  /** `None` stands for Python's `None`, `Some(v)` for a real value. */
  datatype Option<+T> = None | Some(value: T)
}
