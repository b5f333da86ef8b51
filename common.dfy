/** Small shared datatypes. */
module Common {

  /** A value that may be absent: an unset environment variable, a missing
      JSON field, an unchosen calendar date. */
  datatype Option<+T> = None | Some(value: T)

  /** JavaScript truthiness of an optional string: `undefined` and `""` are
      falsy, every other string is truthy. */
  predicate Present(s: Option<string>)
  {
    s.Some? && s.value != ""
  }
}
