/** An optional value, for memoised results that may not have been computed. */
module Optional {
  datatype Option<+T> = None | Some(value: T)
}
