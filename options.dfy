/** The optional value used for table lookups and for the machines' current state
    (the source's `None` before the first transition). */
module Options {
  datatype Option<+T> = None | Some(value: T)
}
