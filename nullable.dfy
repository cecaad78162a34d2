/** A reference that may be null: the fields and arguments the fragments test against null. */
module Nullable {
  datatype Option<T> = None | Some(value: T)
}
