/** JavaScript values as the route-table code sees them: optional options
    fields and the truthiness tests `if (x)` / `assert.ok(x)` apply to them. */
module JsValues {

  /** An options field that may be absent (`undefined`). */
  datatype Option<+T> = None | Some(value: T)

  /** Truthiness of a numeric field: `undefined` and `0` are falsy. */
  predicate TruthyNumber(n: Option<int>) {
    n.Some? && n.value != 0
  }

  /** Truthiness of a string field: `undefined` and `""` are falsy. */
  predicate TruthyString(s: Option<string>) {
    s.Some? && s.value != ""
  }

  /** Truthiness of an array field: every array, the empty one included, is truthy. */
  predicate TruthyArray<T>(a: Option<seq<T>>) {
    a.Some?
  }

  /** What `+` on strings makes of an optional string: `undefined` prints as "undefined". */
  function ToJsString(s: Option<string>): string {
    if s.Some? then s.value else "undefined"
  }

  /** `a[0]`: the first element, or `undefined` for an empty array. */
  function First<T>(a: seq<T>): Option<T> {
    if |a| == 0 then None else Some(a[0])
  }
}
