/** An optional value: JavaScript's `undefined`-or-something where the
    distinction is all that matters. */
module Optional {
  datatype Option<+T> = None | Some(value: T)
}
