/** Small failure-aware wrapper types shared by the other modules. */
module Wrappers {

  /** An optional value: a form field that may be missing, a decoding that may fail. */
  datatype Option<T> = None | Some(value: T)
}
