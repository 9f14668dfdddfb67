/** A value that may be missing: a null reference or an empty `Nullable<T>`. */
module Wrappers {

  datatype Option<+T> = None | Some(value: T)
}
