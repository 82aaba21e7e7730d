/** The Option type the models use for Python's None and JavaScript's undefined. */
module Wrappers {
  datatype Option<+T> = None | Some(value: T)
}
