/**
 * JavaScript truthiness for the few value kinds the client tests with `if (x)`
 * and defaults with `x || d`: strings (the empty string is falsy), numbers
 * (zero is falsy) and missing values (`null`/`undefined`, both `None`).
 */
module JsValues {
  import opened Wrappers

  /** `!!v` for an optional string. */
  predicate Truthy(v: Option<string>) {
    v.Some? && v.value != ""
  }

  /** `!!n` for an optional number (NaN is not modelled). */
  predicate TruthyNum(n: Option<int>) {
    n.Some? && n.value != 0
  }

  /** `v || d` on strings. */
  function Or(v: Option<string>, d: string): string {
    if Truthy(v) then v.value else d
  }

  /** `v || null` on strings: a falsy value becomes missing. */
  function OrNull(v: Option<string>): Option<string> {
    if Truthy(v) then v else None
  }

  /** `n || d` on numbers. */
  function OrNum(n: Option<int>, d: int): int {
    if TruthyNum(n) then n.value else d
  }

  /** `a || b` where both sides are optional strings. */
  function OrElse(a: Option<string>, b: Option<string>): Option<string> {
    if Truthy(a) then a else b
  }

  /** `String(v)` of an optional string, as string concatenation also prints it: a missing value is `undefined`. */
  function StringOf(v: Option<string>): string {
    if v.Some? then v.value else "undefined"
  }
}
