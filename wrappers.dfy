/** The optional value used for a field the order may leave empty. */
module Wrappers {
  datatype Option<+T> = None | Some(value: T)
}
