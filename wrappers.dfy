/** The optional value used by the engine's queue and by the beat display. */
module Wrappers {
  datatype Option<+T> = None | Some(value: T)
}
