/** A value that may be absent: a number that did not parse, a request that
    was not sent. */
module Wrappers {
  datatype Option<+T> = None | Some(value: T)
}
