/**
 * JavaScript values as the SDK handles them: event objects, request bodies,
 * server responses. Property access, truthiness, `typeof` and the conversion
 * of a value to a property key follow the JavaScript rules that the SDK's
 * code relies on.
 */
module JsValues {

  datatype Option<+T> = None | Some(value: T)

  /** A JavaScript value. Numbers are the integers the SDK uses (timestamps,
      status codes, lengths); `JUndefined` is an absent property. */
  datatype Json =
    | JUndefined
    | JNull
    | JBool(b: bool)
    | JNum(n: int)
    | JStr(s: string)
    | JArr(items: seq<Json>)
    | JObj(fields: map<string, Json>)

  /** How a settled promise ended: fulfilled with a value or rejected with a reason. */
  datatype Settled = Fulfilled(value: Json) | Rejected(reason: Json)

  /** What an SDK entry point does when it does not return normally. */
  datatype Error =
    | Thrown(message: string)      // `throw new Error(message)`
    | RejectedWith(reason: Json)   // a rejection passed on unchanged
    | TypeError                    // a property read or write on undefined

  datatype Result<+T> = Ok(value: T) | Fail(error: Error)

  /** `!!v` */
  predicate Truthy(v: Json)
  {
    match v
    case JUndefined => false
    case JNull => false
    case JBool(b) => b
    case JNum(n) => n != 0
    case JStr(s) => s != ""
    case JArr(_) => true
    case JObj(_) => true
  }

  /** `v == null`: the two values on which a property read throws. */
  predicate Nullish(v: Json)
  {
    v.JUndefined? || v.JNull?
  }

  /** `v.key` for a plain object; undefined for a missing key. */
  function Get(v: Json, key: string): Json
  {
    if v.JObj? && key in v.fields then v.fields[key] else JUndefined
  }

  /** `v.key = x`; only objects take new properties. */
  function Put(v: Json, key: string, x: Json): Json
  {
    if v.JObj? then JObj(v.fields[key := x]) else v
  }

  /** `delete v.key` */
  function Remove(v: Json, key: string): Json
  {
    if v.JObj? then JObj(v.fields - {key}) else v
  }

  /** The own enumerable properties that `{...v}` copies. */
  function OwnEntries(v: Json): map<string, Json>
  {
    if v.JObj? then v.fields else map[]
  }

  /** `typeof v` */
  function TypeOf(v: Json): string
  {
    match v
    case JUndefined => "undefined"
    case JBool(_) => "boolean"
    case JNum(_) => "number"
    case JStr(_) => "string"
    case _ => "object"
  }

  function Digit(d: nat): char
    requires d < 10
  {
    "0123456789"[d]
  }

  function NatToString(n: nat): string
    decreases n
  {
    if n < 10 then [Digit(n)] else NatToString(n / 10) + [Digit(n % 10)]
  }

  function IntToString(i: int): string
  {
    if i < 0 then "-" + NatToString(-i) else NatToString(i)
  }

  /** `[a, b].join(",")` over already converted elements. */
  function JoinWithCommas(parts: seq<string>): string
  {
    if |parts| == 0 then ""
    else if |parts| == 1 then parts[0]
    else parts[0] + "," + JoinWithCommas(parts[1..])
  }

  /** `String(v)`, which is also how a value becomes a property key. An array
      joins its elements, writing null and undefined as the empty string. */
  function ToJsString(v: Json): string
    decreases v
  {
    match v
    case JUndefined => "undefined"
    case JNull => "null"
    case JBool(b) => if b then "true" else "false"
    case JNum(n) => IntToString(n)
    case JStr(s) => s
    case JArr(items) =>
      JoinWithCommas(seq(|items|, i requires 0 <= i < |items| =>
        if Nullish(items[i]) then "" else ToJsString(items[i])))
    case JObj(_) => "[object Object]"
  }

  /** The property key `obj[v]` reads: `v` converted to a string. */
  function PropKey(v: Json): string
  {
    ToJsString(v)
  }
}
