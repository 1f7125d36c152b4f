/** The slice of JavaScript's value semantics that the authentication code
    relies on: primitive values, truthiness (`if (!x)`), property reads that
    yield `undefined`, and the string conversion of a template literal. */
module Js {

  /** A primitive JavaScript value. Numbers are modelled as integers. */
  datatype JsValue = Undefined | Null | Bool(b: bool) | Num(n: int) | Str(s: string)

  /** ECMAScript ToBoolean on primitives: `undefined`, `null`, `false`, `0`
      and `""` are falsy, everything else is truthy. */
  predicate Truthy(v: JsValue)
  {
    match v
    case Undefined => false
    case Null => false
    case Bool(b) => b
    case Num(n) => n != 0
    case Str(s) => s != ""
  }

  /** Reading property `key` of a plain object; a missing key reads as `undefined`. */
  function Get(obj: map<string, JsValue>, key: string): JsValue
  {
    if key in obj then obj[key] else Undefined
  }

  /** The decimal digits of a natural number, most significant first. */
  function Digits(n: nat): (s: string)
    ensures |s| >= 1
    ensures forall i :: 0 <= i < |s| ==> '0' <= s[i] <= '9'
    ensures n >= 10 ==> s[0] != '0'
  {
    if n < 10 then [(n as char) + '0']
    else Digits(n / 10) + [((n % 10) as char) + '0']
  }

  /** ECMAScript ToString on primitives, as `${v}` in a template literal. */
  function Display(v: JsValue): (s: string)
    ensures v.Str? ==> s == v.s
    ensures v == Undefined ==> s == "undefined"
  {
    match v
    case Undefined => "undefined"
    case Null => "null"
    case Bool(b) => if b then "true" else "false"
    case Num(n) => if n < 0 then "-" + Digits(-n) else Digits(n)
    case Str(s) => s
  }
}
