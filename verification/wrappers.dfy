/** Optional values: the model's stand-in for the NULL pointers of the shell. */
module Wrappers {

  /** `None` plays the part of a NULL `char*` or list pointer. */
  datatype Option<+T> = None | Some(value: T)
}
