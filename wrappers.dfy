/** The usual Some/None datatype, used for the absent prediction slot and optional fields. */
module Wrappers {
  datatype Option<+T> = None | Some(value: T)
}
