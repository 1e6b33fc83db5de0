/** JavaScript values as the component uses them: a value that may be
    `undefined`, and the truthiness of strings. */
module JsValues {

  /** A value that may be missing (`undefined` in the component). */
  datatype Option<+T> = None | Some(value: T)

  /** A string value is truthy when it is present and not empty. */
  predicate IsTruthy(v: Option<string>) {
    v.Some? && v.value != ""
  }

  /** The expression `v || fallback` where `v` may be undefined. */
  function Or(v: Option<string>, fallback: string): string {
    if IsTruthy(v) then v.value else fallback
  }
}
