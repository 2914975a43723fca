/** Python values the chat code tests for truthiness. */
module Values {

  datatype Option<+T> = None | Some(value: T)

  /** A dynamically typed Python value as far as the code inspects it:
      `None`, a `str`, or any other object with its truthiness. */
  datatype Value = Absent | Str(text: string) | NonString(truthy: bool)

  /** Python `bool(v)`. */
  predicate Truthy(v: Value) {
    match v
    case Absent => false
    case Str(t) => t != ""
    case NonString(b) => b
  }

  /** Python `o or fallback` for an optional string. */
  function OrElse(o: Option<string>, fallback: string): (r: string)
    ensures o.Some? && o.value != "" ==> r == o.value
    ensures o.None? || o.value == "" ==> r == fallback
  {
    if o.Some? && o.value != "" then o.value else fallback
  }
}
