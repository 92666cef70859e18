/** The optional value the pages use for JavaScript's `null`, `undefined` or a falsy
    value, as each datatype field documents. */
module Wrappers {

  datatype Option<+T> = None | Some(value: T)

  /** A string-or-absent value is truthy when present and not the empty string. */
  predicate Truthy(value: Option<string>) {
    value.Some? && value.value != ""
  }

}
