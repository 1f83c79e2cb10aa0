/** The optional value the Swift code expresses with `T?` and `if let`. */
module Wrappers {

  datatype Option<+T> = None | Some(value: T)
}
