/** A lookup that may find nothing: the model's stand-in for a Java `null` result. */
module Wrappers {

  datatype Option<+T> = None | Some(value: T)
}
