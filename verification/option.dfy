/** The optional value used for dictionary lookups and for the keys of a draft that are not yet set. */
module Optional {
  datatype Option<+T> = None | Some(value: T)
}
