/** A value that may be missing: JavaScript's `undefined`, or a lookup that found nothing. */
module Wrappers {
  datatype Option<+T> = None | Some(value: T)
}
