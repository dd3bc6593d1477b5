/** An optional value, used for absent attributes and for steps that do not happen. */
module Wrappers {
  datatype Option<+T> = None | Some(value: T)
}
