/** The "present or absent" value a lookup yields (Ruby's `nil` for absent). */
module Wrappers {

  datatype Option<+T> = None | Some(value: T)
}
