/** A nullable value, for the service operations that return `bool?`. */
module Wrappers {
  datatype Option<+T> = None | Some(value: T)
}
