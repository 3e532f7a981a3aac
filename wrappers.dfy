/** The optional-value type used by the registry's inverse lookup. */
module Wrappers {

  /** An optional value. */
  datatype Option<T> = None | Some(value: T)
}
