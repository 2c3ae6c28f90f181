/** Small failure-carrying datatypes shared by the other modules. */
module Wrappers {

  /** `T | null` / `T | undefined` in the source: a value that may be absent. */
  datatype Option<+T> = None | Some(value: T)

  /** JavaScript truthiness of a `string | null`: present and non-empty. */
  predicate Truthy(s: Option<string>)
  {
    s.Some? && s.value != ""
  }
}
