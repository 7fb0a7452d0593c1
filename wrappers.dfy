/** The optional value used for "maybe a result": a parsed payload, a published command. */
module Wrappers {
  datatype Option<+T> = None | Some(value: T)
}
