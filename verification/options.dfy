/** The optional-value type shared by the list-watcher model. */
module Options {

  /** Either nothing or one value: a pattern that did not match, a deletion
      mark that is absent, a renumbering request that was not made. */
  datatype Option<+T> = None | Some(value: T)
}
