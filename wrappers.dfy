/** An optional value, for results that may be absent (a missed hit). */
module Wrappers {

  datatype Option<T> = None | Some(value: T)
}
