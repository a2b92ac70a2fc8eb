/** The explicit "absent" result used by the parser's nil-tolerant accessors. */
module Wrappers {
  datatype Option<+T> = None | Some(value: T)
}
