/** The optional value the models use for `T | null` and for a storage key that may be absent. */
module Wrappers {

  datatype Option<+T> = None | Some(value: T)
}
