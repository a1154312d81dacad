/** Shared types: an optional value, and the answer of a node that may not answer. */
module Prelude {
  datatype Option<+T> = None | Some(value: T)

  datatype Rpc<+T> = Got(value: T) | Lost
}
