/** The optional-value type used wherever the game keeps `null` or an absent field. */
module Wrappers {
  datatype Option<+T> = None | Some(value: T)
}
