/** The nullable value of the source (`string | null`, `localStorage.getItem`'s result). */
module Wrappers {

  datatype Option<+T> = None | Some(value: T)
}
