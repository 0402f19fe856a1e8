/** Small shared vocabulary: optional values, results and the JavaScript
    truthiness rules the stores rely on for their `||` fallbacks. */
module Common {

  datatype Option<+T> = None | Some(value: T)

  /** The outcome of an awaited promise: a value, or a rejection carrying the
      error's message. */
  datatype Result<+T> = Success(value: T) | Failure(message: string)

  /** `a || fallback` on an optional string: JavaScript treats both a missing
      value and the empty string as false. */
  function OrElse(a: Option<string>, fallback: string): (r: string)
    ensures r == fallback || (a.Some? && r == a.value)
    ensures r == fallback <== !(a.Some? && a.value != "")
    ensures a.Some? && a.value != "" ==> r == a.value
  {
    if a.Some? && a.value != "" then a.value else fallback
  }

  /** `a || null` on an optional string. */
  function NonEmpty(a: Option<string>): (r: Option<string>)
    ensures r.Some? <==> a.Some? && a.value != ""
    ensures r.Some? ==> r == a
  {
    if a.Some? && a.value != "" then a else None
  }

  /** An optional JavaScript number used as a condition: false when missing
      (`null`/`undefined`) or zero. */
  predicate Truthy(t: Option<int>) {
    t.Some? && t.value != 0
  }
}
