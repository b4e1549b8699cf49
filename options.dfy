/** The option type for lookups that may miss and matches that may find nothing. */
module Options {

  datatype Option<+T> = None | Some(value: T)
}
