/** JavaScript values as the relay handles them, and the few language operations it relies on:
    truthiness, string coercion, property reads, the page's JSON object and the outcome of `fetch`. */
module Js {

  /** An operation that either yields a value or throws an Error carrying a message. */
  datatype Result<+T> = Success(value: T) | Failure(error: string) {
    predicate IsFailure() { Failure? }
    function PropagateFailure<U>(): Result<U> requires Failure? { Failure(error) }
    function Extract(): T requires Success? { value }
  }

  datatype Option<+T> = None | Some(value: T)

  /** The values the relay reads from JSON, plus `undefined`: no arrays, and numbers are integers. */
  datatype JsValue =
    | Undefined
    | Null
    | Bool(b: bool)
    | Num(n: int)
    | Str(s: string)
    | Obj(fields: map<string, JsValue>)

  predicate IsNullish(v: JsValue) { v.Undefined? || v.Null? }

  /** `!!v`: undefined, null, false, 0 and "" are falsy, everything else is truthy. */
  predicate Truthy(v: JsValue) {
    match v
    case Undefined => false
    case Null => false
    case Bool(b) => b
    case Num(n) => n != 0
    case Str(s) => s != ""
    case Obj(_) => true
  }

  function DecimalDigit(d: int): char
    requires 0 <= d < 10
  {
    ('0' as int + d) as char
  }

  /** Decimal notation of a natural number, without leading zeros. */
  function NatToDecimal(n: nat): (r: string)
    ensures r != []
    ensures forall i :: 0 <= i < |r| ==> '0' <= r[i] <= '9'
    ensures n >= 10 ==> r[0] != '0'
    decreases n
  {
    if n < 10 then [DecimalDigit(n)] else NatToDecimal(n / 10) + [DecimalDigit(n % 10)]
  }

  /** `String(v)`; only the empty string coerces to the empty text. */
  function ToString(v: JsValue): (r: string)
    ensures r == "" <==> v == Str("")
    ensures Truthy(v) ==> r != ""
  {
    match v
    case Undefined => "undefined"
    case Null => "null"
    case Bool(b) => if b then "true" else "false"
    case Num(n) => if n < 0 then "-" + NatToDecimal(-n) else NatToDecimal(n)
    case Str(s) => s
    case Obj(_) => "[object Object]"
  }

  /** `v[key]` on a value that is not null or undefined: absent keys and primitives give undefined. */
  function Field(v: JsValue, key: string): JsValue {
    if v.Obj? && key in v.fields then v.fields[key] else Undefined
  }

  /** An object `JSON.parse` can return: no property holds undefined. */
  predicate NoUndefinedProps(v: JsValue) {
    v.Obj? && forall k :: k in v.fields ==> !v.fields[k].Undefined?
  }

  /** The properties `JSON.stringify` writes: those whose value is undefined are dropped. Reading
      a dropped property back gives undefined all the same. */
  function Defined(fields: map<string, JsValue>): (r: map<string, JsValue>)
    ensures NoUndefinedProps(Obj(r))
    ensures forall k :: Field(Obj(r), k) == Field(Obj(fields), k)
  {
    map k | k in fields && !fields[k].Undefined? :: fields[k]
  }

  /** The message of the TypeError thrown by a property read on null or undefined. */
  function ReadError(v: JsValue, key: string): string {
    "Cannot read properties of " + ToString(v) + " (reading '" + key + "')"
  }

  /** `v.key`: throws exactly when `v` is null or undefined, otherwise yields the field. */
  function Prop(v: JsValue, key: string): Result<JsValue> {
    if IsNullish(v) then Failure(ReadError(v, key)) else Success(Field(v, key))
  }

  /** `new Error(v || fallback).message`. */
  function ErrorText(v: JsValue, fallback: string): (r: string)
    ensures fallback != "" ==> r != ""
  {
    if Truthy(v) then ToString(v) else fallback
  }

  /** The page's `JSON` object, which the model leaves abstract. `stringify` is JSON.stringify
      followed by the string coercion that localStorage.setItem applies; `parse` is JSON.parse,
      failing with the SyntaxError's message. */
  datatype JsonCodec = JsonCodec(stringify: JsValue -> string, parse: string -> Result<JsValue>)

  /** What one `fetch` call produced: a rejected promise with the error's message, or a response
      with its `ok` flag whose `.json()` either yields a value or throws with a message. */
  datatype Reply = Rejected(reason: string) | Replied(ok: bool, body: Result<JsValue>)
}
