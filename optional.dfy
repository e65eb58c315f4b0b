/** An optional value: a scan that may find nothing, or data that may not have been produced yet. */
module Optional {
  datatype Option<+T> = None | Some(value: T)
}
