/** Failure-compatible value used wherever the source raises (struct.error,
    IndexError, KeyError) instead of returning a value. */
module Wrappers {
  datatype Option<+T> = None | Some(value: T)
}
