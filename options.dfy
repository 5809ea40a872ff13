/** The optional value used for empty slots, absent pages and empty dequeues. */
module Options {
  datatype Option<+T> = None | Some(value: T)
}
