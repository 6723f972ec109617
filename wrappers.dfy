/** The optional values the Swift code expresses with `T?` and `T!`. */
module Wrappers {

  datatype Option<+T> = None | Some(value: T)
}
