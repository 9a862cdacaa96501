/** An optional value: an absent storage key, a missing catalog entry, an omitted
    argument. */
module Options {
  datatype Option<T> = None | Some(value: T)
}
