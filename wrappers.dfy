/** The optional value used for grid slots (a null `Particle*` in the source is `None`). */
module Wrappers {
  datatype Option<+T> = None | Some(value: T)
}
