/** The optional value used wherever a Python call can raise instead of returning. */
module Wrappers {
  datatype Option<+T> = None | Some(value: T)
}
