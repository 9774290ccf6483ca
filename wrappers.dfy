/** An optional value, used by the decoders for text that does not parse. */
module Wrappers {
  datatype Option<+T> = None | Some(value: T)
}
