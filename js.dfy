/**
  JavaScript values as the adapter sees them: the shapes an HTTP-style event,
  a parsed JSON document or a thrown value can take, together with the few
  pieces of JavaScript semantics the adapter relies on (truthiness, `||`,
  `&&`, property reads, destructuring defaults and `String(v)`).
 */
module Js {

  datatype Option<T> = None | Some(value: T)

  /** A JavaScript value. Numbers are integers here; NaN, -0 and fractions are not modelled. */
  datatype JsVal =
    | Undefined
    | Null
    | Bool(b: bool)
    | Num(n: int)
    | Str(s: string)
    | Arr(elems: seq<JsVal>)
    | Obj(props: map<string, JsVal>)

  /** The five falsy values of JavaScript that this model can express (NaN and -0 are not among its numbers). */
  predicate IsFalsy(v: JsVal) {
    v == Undefined || v == Null || v == Bool(false) || v == Num(0) || v == Str("")
  }

  predicate IsTruthy(v: JsVal) {
    !IsFalsy(v)
  }

  /** Reading a property of `undefined` or `null` throws a TypeError. */
  predicate IsNullish(v: JsVal) {
    v.Undefined? || v.Null?
  }

  /**
    `v[key]` on a value that is not nullish. Only own properties of objects are
    seen: none of the keys the adapter reads exist on a prototype.
   */
  function Get(v: JsVal, key: string): JsVal
    requires !IsNullish(v)
  {
    if v.Obj? && key in v.props then v.props[key] else Undefined
  }

  /** `a || b` */
  function Or(a: JsVal, b: JsVal): JsVal
  {
    if IsTruthy(a) then a else b
  }

  /** `v && v[key]`: the guard keeps `v[key]` from being read on a falsy `v`. */
  function AndGet(v: JsVal, key: string): JsVal
  {
    if IsFalsy(v) then v else Get(v, key)
  }

  /** A destructuring default `{ x = d } = o`: `d` is taken only when `o.x` is undefined. */
  function DefaultIfUndefined(v: JsVal, d: JsVal): JsVal
  {
    if v.Undefined? then d else v
  }

  /** `parts.join(sep)` */
  function Join(parts: seq<string>, sep: string): string
  {
    if |parts| == 0 then ""
    else if |parts| == 1 then parts[0]
    else parts[0] + sep + Join(parts[1..], sep)
  }

  function DigitChar(d: nat): char
    requires d < 10
  {
    "0123456789"[d]
  }

  function NatToString(n: nat): string
  {
    if n < 10 then [DigitChar(n)] else NatToString(n / 10) + [DigitChar(n % 10)]
  }

  function IntToString(n: int): string
  {
    if n < 0 then "-" + NatToString(-n) else NatToString(n)
  }

  /** `String(v)` for the values of this model. */
  function ToString(v: JsVal): string
    decreases v
  {
    match v
    case Undefined => "undefined"
    case Null => "null"
    case Bool(b) => if b then "true" else "false"
    case Num(n) => IntToString(n)
    case Str(s) => s
    case Obj(_) => "[object Object]"
    case Arr(es) =>
      // Array.prototype.toString joins with "," and prints holes, null and undefined as ""
      Join(seq(|es|, i requires 0 <= i < |es| => if IsNullish(es[i]) then "" else ToString(es[i])), ",")
  }
}
