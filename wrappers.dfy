/** A value that may be absent: a missing CV file, a hidden dropdown. */
module Wrappers {
  datatype Option<+T> = None | Some(value: T)
}
