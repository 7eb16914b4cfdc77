/**
 * The JavaScript values a decoded token payload can carry, and the
 * truthiness test that `if (x)` and `a && b` apply to them.
 */
module JsValues {

  /** A JSON value as JavaScript holds it after decoding; numbers are integers here. */
  datatype JsValue =
    | Undefined
    | Null
    | Bool(b: bool)
    | Number(n: int)
    | Str(s: string)
    | Object

  /** JavaScript truthiness: undefined, null, false, 0 and "" are falsy; every other value is truthy. */
  predicate Truthy(v: JsValue)
    // the falsy values are exactly these five
    ensures !Truthy(v) <==> v in {Undefined, Null, Bool(false), Number(0), Str("")}
  {
    match v
    case Undefined => false
    case Null => false
    case Bool(b) => b
    case Number(n) => n != 0
    case Str(s) => s != ""
    case Object => true
  }

  /** The decoded payload of a token: claim name to value. */
  type Claims = map<string, JsValue>

  /** Property access `decoded.name`: undefined when the claim is absent. */
  function Claim(decoded: Claims, name: string): (v: JsValue)
    ensures name in decoded ==> v == decoded[name]
    ensures name !in decoded ==> v == Undefined
  {
    if name in decoded then decoded[name] else Undefined
  }
}
