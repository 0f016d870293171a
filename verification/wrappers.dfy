/** Optional values and the one piece of JavaScript truthiness the pipeline relies on. */
module Wrappers {

  /** `None` stands for a JSON field that is absent, `undefined` or `null`. */
  datatype Option<+T> = None | Some(value: T)

  /** JavaScript truthiness of an optional string: `null`, `undefined` and `""` are falsy. */
  predicate Truthy(s: Option<string>) {
    s.Some? && s.value != ""
  }
}
