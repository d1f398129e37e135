/** Values as the components see them in JavaScript: optional props and truthiness. */
module Js {

  /** An optional prop: `None` is `undefined`. */
  datatype Option<+T> = None | Some(value: T)

  /** JavaScript truthiness of an optional string: `undefined` and `""` are falsy. */
  predicate Truthy(s: Option<string>)
  {
    s.Some? && s.value != ""
  }
}
