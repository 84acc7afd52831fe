// Optional values, for results that may be absent (a null pointer in Qt Creator).

module Wrappers {
  datatype Option<+T> = None | Some(value: T)
}
