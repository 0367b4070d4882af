/** JavaScript values as `JSON.parse` yields them, with the truthiness and coercion rules the
    validator relies on. The float-dependent halves of `Number(...)` and `String(...)` (parsing a
    numeric string, printing a number) are supplied by the caller as a `Coercion`. */
module Json {

  /** A parsed JSON value, plus `undefined`, which is what a missing property reads as. */
  datatype Raw =
    | Undefined
    | Null
    | Str(s: string)
    | Num(n: real)
    | Bool(b: bool)
    | Obj(fields: map<string, Raw>)

  /** The outcome of `Number(...)`. */
  datatype JsNumber = NaN | Finite(r: real)

  /** `parseNumber` is `Number(s)` for a string `s`; `showNumber` is `String(n)` for a number `n`. */
  datatype Coercion = Coercion(parseNumber: string -> JsNumber, showNumber: real -> string)

  /** JavaScript truthiness: `undefined`, `null`, `''`, `0` and `false` are falsy. */
  predicate Truthy(v: Raw) {
    match v
    case Undefined => false
    case Null => false
    case Str(s) => s != ""
    case Num(n) => n != 0.0
    case Bool(b) => b
    case Obj(_) => true
  }

  /** `v[key]`: a property of an object, `undefined` for anything else. */
  function Get(v: Raw, key: string): Raw {
    if v.Obj? && key in v.fields then v.fields[key] else Undefined
  }

  /** `Number(v)`. */
  function ToNumber(v: Raw, c: Coercion): JsNumber {
    match v
    case Undefined => NaN
    case Null => Finite(0.0)
    case Str(s) => c.parseNumber(s)
    case Num(n) => Finite(n)
    case Bool(b) => Finite(if b then 1.0 else 0.0)
    case Obj(_) => NaN
  }

  /** `String(v)`. */
  function ToText(v: Raw, c: Coercion): string {
    match v
    case Undefined => "undefined"
    case Null => "null"
    case Str(s) => s
    case Num(n) => c.showNumber(n)
    case Bool(b) => if b then "true" else "false"
    case Obj(_) => "[object Object]"
  }

  /** `Number(v) || 0`: the coerced number, with NaN (and zero) read as zero. */
  function NumberOrZero(v: Raw, c: Coercion): (r: real)
    ensures r == 0.0 <==> ToNumber(v, c) == NaN || ToNumber(v, c) == Finite(0.0)
    ensures r != 0.0 ==> ToNumber(v, c) == Finite(r)
  {
    match ToNumber(v, c)
    case NaN => 0.0
    case Finite(x) => x
  }

  /** `String(v || '')`: the text of a truthy value, the empty string otherwise. */
  function TextOrEmpty(v: Raw, c: Coercion): (r: string)
    ensures !Truthy(v) ==> r == ""
    ensures Truthy(v) ==> r == ToText(v, c)
  {
    ToText(if Truthy(v) then v else Str(""), c)
  }
}
