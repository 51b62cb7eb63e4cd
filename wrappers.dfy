/** A possibly-absent value: the model's stand-in for a `shared_ptr` that may be null. */
module Wrappers {

  datatype Option<+T> = None | Some(value: T)
}
