/** Small types shared by every component model. */
module Common {
  datatype Option<+T> = None | Some(value: T)

  /** Write-once publication: an absent entry is created, an equal one is left, any other is refused. */
  predicate Publishable<T(==)>(entry: Option<T>, value: T) {
    entry == None || entry == Some(value)
  }
}
