/** The JavaScript values the core inspects: numbers with their special
    values, and the dynamically typed fields of a parsed JSON body. */
module Js {
  import opened Wrappers

  /** A JavaScript number, idealised: finite values are exact reals
      (no binary rounding), the special values are kept apart. */
  datatype JsNumber = Finite(value: real) | NaN | PosInfinity | NegInfinity

  /** A dynamically typed value as it arrives in a JSON body. */
  datatype JsValue = JNumber(n: JsNumber) | JString(s: string) | JBool(b: bool) | JNull | JUndefined | JObject

  /** `Boolean(v)`: 0, NaN, "", false, null and undefined are falsy. */
  predicate Truthy(v: JsValue) {
    match v
    case JNumber(n) => !(n.NaN? || (n.Finite? && n.value == 0.0))
    case JString(s) => s != ""
    case JBool(b) => b
    case JNull => false
    case JUndefined => false
    case JObject => true
  }

  /** JavaScript truthiness of an optional string: set and non-empty. */
  predicate Present(v: Option<string>) {
    v.Some? && v.value != ""
  }

  /** A string-to-number conversion (`Number.parseFloat`, `Number`) whose
      digit grammar is not modelled. */
  type NumberParser = string -> JsNumber

  /** `a * b` with IEEE-754's rules for the special values; a finite
      product is exact (overflow to infinity is not modelled). */
  function Mul(a: JsNumber, b: JsNumber): (r: JsNumber)
    ensures r.Finite? <==> a.Finite? && b.Finite?
    ensures r.Finite? ==> r.value == a.value * b.value
  {
    if a.NaN? || b.NaN? then NaN
    else if a.Finite? && b.Finite? then Finite(a.value * b.value)
    else if (a.Finite? && a.value == 0.0) || (b.Finite? && b.value == 0.0) then NaN
    else if IsNegative(a) == IsNegative(b) then PosInfinity
    else NegInfinity
  }

  predicate IsNegative(a: JsNumber) {
    a.NegInfinity? || (a.Finite? && a.value < 0.0)
  }
}
