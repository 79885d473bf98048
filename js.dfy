/** The JavaScript values and idioms that the FarmFlow screens and slices lean on:
    optional values (`undefined`/`null`), numbers as `Number()` produces them,
    the `||` fallback on strings, and the settled outcome of an awaited `fetch`. */
module Js {

  datatype Option<+T> = None | Some(value: T)

  /** A JavaScript number as far as the client's comparisons can tell:
      `NaN`, the two infinities, or a finite value. */
  datatype JsNumber = NotANumber | Finite(value: real) | PlusInfinity | MinusInfinity

  /** `n >= bound` with IEEE semantics: `NaN` compares false with everything. */
  predicate AtLeast(n: JsNumber, bound: real) {
    match n
    case NotANumber => false
    case Finite(v) => v >= bound
    case PlusInfinity => true
    case MinusInfinity => false
  }

  /** `n <= bound` with IEEE semantics. */
  predicate AtMost(n: JsNumber, bound: real) {
    match n
    case NotANumber => false
    case Finite(v) => v <= bound
    case PlusInfinity => false
    case MinusInfinity => true
  }

  /** `isNaN(n)`. */
  predicate IsNaN(n: JsNumber) {
    n.NotANumber?
  }

  /** A string-valued field read from a parsed body or a state slot is truthy
      exactly when it is present and not the empty string. */
  predicate Truthy(s: Option<string>) {
    s.Some? && s.value != ""
  }

  /** `s || fallback`, where `s` may be `undefined` or `null` (`None`). */
  function OrElse(s: Option<string>, fallback: string): (r: string)
    ensures Truthy(s) ==> r == s.value
    ensures !Truthy(s) ==> r == fallback
    ensures fallback != "" ==> r != ""
  {
    if Truthy(s) then s.value else fallback
  }

  /** `xs?.[0] || fallback`: the first entry of an optional array, if that is
      a non-empty string, else the fallback. */
  function FirstOrElse(xs: Option<seq<string>>, fallback: string): (r: string)
    ensures xs.Some? && |xs.value| > 0 && xs.value[0] != "" ==> r == xs.value[0]
    ensures (xs.None? || |xs.value| == 0 || xs.value[0] == "") ==> r == fallback
  {
    OrElse(if xs.Some? && |xs.value| > 0 then Some(xs.value[0]) else None, fallback)
  }

  /** What a `catch` clause receives: an `Error` object (with its `message`)
      or some other thrown value. */
  datatype Thrown = ErrorValue(message: string) | OtherValue

  /** The settled outcome of `await fetch(...)` followed by reading the body:
      either the server answered (with `response.ok` and the parsed body,
      whose fields are described per endpoint by `D`), or the request or the
      parse threw. */
  datatype Reply<D> = Answered(ok: bool, data: D) | Threw(thrown: Thrown)
  {
    predicate IsOk() {
      Answered? && ok
    }
  }
}
