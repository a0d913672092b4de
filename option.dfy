/** The optional value of the source's `T | null` state and results. */
module Optional {
  datatype Option<T> = None | Some(value: T)
}
