/** Small failure-compatible wrapper used across the model. */
module Wrappers {

  /** A value that may be absent: a null pointer, a missing map key, a
      search that found nothing. */
  datatype Option<+T> = None | Some(value: T)
}
