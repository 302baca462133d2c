/** The Some/None datatype used wherever Ruby code answers `nil` for "nothing". */
module Optional {

  datatype Option<+T> = None | Some(value: T)
}
