/** A value that may be absent: JavaScript's null or undefined. */
module Options {
  datatype Option<+T> = None | Some(value: T)

  /** A text that counts as true: there, and not empty. */
  predicate Truthy(s: Option<string>) {
    s.Some? && s.value != ""
  }
}
