/** The optional value used for the engine's "previous pose" fields, which start out unset (null). */
module Wrappers {
  datatype Option<+T> = None | Some(value: T)
}
