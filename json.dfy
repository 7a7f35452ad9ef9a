/**
 * JavaScript values as the proxies and dashboards see them: parsed JSON plus
 * `undefined`, with numbers restricted to integers.  The property access,
 * optional chaining, truthiness and `||` helpers follow JavaScript semantics.
 */
module Js {
  import opened Wrappers

  datatype Json =
    | Undefined
    | Null
    | Bool(b: bool)
    | Num(n: int)
    | Str(s: string)
    | Arr(items: seq<Json>)
    | Obj(fields: map<string, Json>)

  /** `null` or `undefined`: the two values whose properties cannot be read. */
  predicate Nullish(v: Json) {
    v.Undefined? || v.Null?
  }

  /** JavaScript ToBoolean; NaN is not representable here. */
  predicate Truthy(v: Json) {
    match v
    case Undefined => false
    case Null => false
    case Bool(b) => b
    case Num(n) => n != 0
    case Str(s) => s != ""
    case Arr(_) => true
    case Obj(_) => true
  }

  /** `a || b`: the first operand when it is truthy, otherwise the second one. */
  function Or(a: Json, b: Json): (r: Json)
    ensures Truthy(r) <==> Truthy(a) || Truthy(b)
    ensures Truthy(a) ==> r == a
    ensures !Truthy(a) ==> r == b
  {
    if Truthy(a) then a else b
  }

  /**
   * An own property of a parsed object, `undefined` otherwise.  This is
   * `v?.key` for every value, and `v.key` for every value but null and undefined.
   */
  function Get(v: Json, key: string): Json {
    if v.Obj? && key in v.fields then v.fields[key] else Undefined
  }

  /** V8's message for reading `key` of null or undefined. */
  function TypeErrorMessage(v: Json, key: string): string {
    "Cannot read properties of " + (if v.Null? then "null" else "undefined") + " (reading '" + key + "')"
  }

  /** `v.key`: throws a TypeError exactly when `v` is null or undefined. */
  function Read(v: Json, key: string): (r: Result<Json>)
    ensures r.Failure? <==> Nullish(v)
    ensures r.Success? ==> r.value == Get(v, key)
    ensures r.Failure? ==> r.error == TypeErrorMessage(v, key)
  {
    if Nullish(v) then Failure(TypeErrorMessage(v, key)) else Success(Get(v, key))
  }

  /** The optional chain `v?.k0?.k1?. ...` over `keys`; it never throws. */
  function Path(v: Json, keys: seq<string>): Json
    decreases |keys|
  {
    if keys == [] then v else Path(Get(v, keys[0]), keys[1..])
  }

  lemma {:induction false} PathOfNullish(v: Json, keys: seq<string>)
    requires !v.Obj? && keys != []
    ensures Path(v, keys) == Undefined
    decreases |keys|
  {
    if |keys| > 1 {
      PathOfNullish(Undefined, keys[1..]);
    }
  }

  function DigitChar(d: nat): char
    requires d < 10
  {
    "0123456789"[d]
  }

  function NatToString(n: nat): (r: string)
    ensures |r| >= 1
    decreases n
  {
    if n < 10 then [DigitChar(n)] else NatToString(n / 10) + [DigitChar(n % 10)]
  }

  /** Concatenation of `parts` with "," between consecutive ones. */
  function JoinComma(parts: seq<string>): string {
    if parts == [] then ""
    else if |parts| == 1 then parts[0]
    else parts[0] + "," + JoinComma(parts[1..])
  }

  /**
   * `String(v)`, which is also the `message` of `new Error(v)`.  Arrays join
   * their elements with "," and print null and undefined elements as "".
   */
  function ToJsString(v: Json): string
    decreases v
  {
    match v
    case Undefined => "undefined"
    case Null => "null"
    case Bool(b) => if b then "true" else "false"
    case Num(n) => if n < 0 then "-" + NatToString(-n) else NatToString(n)
    case Str(s) => s
    case Arr(items) =>
      JoinComma(seq(|items|, i requires 0 <= i < |items| =>
        if Nullish(items[i]) then "" else ToJsString(items[i])))
    case Obj(_) => "[object Object]"
  }

  /** The response body `{ error: msg }`. */
  function ErrorBody(msg: string): Json {
    Obj(map["error" := Str(msg)])
  }

  /** The response body `{ error: msg, details: details }`. */
  function ErrorDetailsBody(msg: string, details: Json): Json {
    Obj(map["error" := Str(msg), "details" := details])
  }
}
