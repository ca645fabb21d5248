/** JavaScript values the setup wizard relies on: `undefined`, truthiness and array indexing. */
module JsValues {

  /** A value that may be `undefined` (or `null`): an optional prop, a live query still loading. */
  datatype Option<+T> = None | Some(value: T)

  /** `Boolean(x)` for an optional boolean: `undefined` and `false` are falsy. */
  predicate BoolTruthy(b: Option<bool>) {
    b == Some(true)
  }

  /** `Boolean(s)` for an optional string: `undefined` and the empty string are falsy. */
  predicate StringTruthy(s: Option<string>) {
    s.Some? && s.value != ""
  }

  /** `a[i]` on a JavaScript array: `undefined` outside the bounds, never an error. */
  function At<T>(a: seq<T>, i: int): Option<T> {
    if 0 <= i < |a| then Some(a[i]) else None
  }
}
