/** The optional value used for fields and results the script treats as possibly absent. */
module Wrappers {
  datatype Option<+T> = None | Some(value: T)
}
