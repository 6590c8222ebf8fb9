/** An optional value: an absent field of a patch, or no hovered shape. */
module Wrappers {
  datatype Option<+T> = None | Some(value: T)
}
