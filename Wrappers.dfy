/** The optional-value datatype used for Kotlin's nullable types (`Action?`, `String?`, `Equipo?`). */
module Wrappers {

  datatype Option<+T> = None | Some(value: T)
}
