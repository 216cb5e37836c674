/** A conventional optional value, used where the plugin has a value that may be absent. */
module Wrappers {
  datatype Option<+T> = None | Some(value: T)
}
