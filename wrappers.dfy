/** An optional value, for Go's nil-able results and "comma ok" lookups. */
module Wrappers {

  datatype Option<+T> = None | Some(value: T)
}
