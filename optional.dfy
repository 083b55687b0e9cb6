/** The absent-or-present value used for the source's `undefined` lookups and optional arrays. */
module Optional {
  datatype Option<+T> = None | Some(value: T)
}
