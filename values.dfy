/** The part of JavaScript's value model the extension inspects: the shapes
    a backend reply can take, truthiness, property access with and without
    optional chaining, and thrown errors. Numbers are integers here; the
    extension only tests them for truthiness and prints HTTP status codes. */
module JsValues {
  import opened JsString
  import opened Optional

  datatype Value =
    | Undefined
    | Null
    | Bool(b: bool)
    | Num(n: int)
    | Str(s: string)
    | Arr(items: seq<Value>)
    | Obj(fields: map<string, Value>)

  /** `if (v)`: false, 0, "", null and undefined are falsy. */
  predicate Truthy(v: Value) {
    match v
    case Undefined => false
    case Null => false
    case Bool(b) => b
    case Num(n) => n != 0
    case Str(s) => s != ""
    case Arr(_) => true
    case Obj(_) => true
  }

  predicate IsNullish(v: Value) {
    v.Undefined? || v.Null?
  }

  /** `v?.key`: undefined on a nullish value or a missing key. The model
      gives arrays and strings no named properties. */
  function Get(v: Value, key: string): (r: Value)
    ensures IsNullish(v) ==> r == Undefined
    ensures v.Obj? && key in v.fields ==> r == v.fields[key]
    ensures !v.Obj? || key !in v.fields ==> r == Undefined
  {
    match v
    case Obj(fields) => if key in fields then fields[key] else Undefined
    case _ => Undefined
  }

  /** `v?.[i]`: an array element, a one-character string, or the property
      named by the decimal index of an object; undefined otherwise. */
  function At(v: Value, i: nat): (r: Value)
    ensures IsNullish(v) ==> r == Undefined
    ensures v.Arr? ==> r == (if i < |v.items| then v.items[i] else Undefined)
  {
    match v
    case Arr(items) => if i < |items| then items[i] else Undefined
    case Str(s) => if i < |s| then Str([s[i]]) else Undefined
    case Obj(fields) => if NatToString(i) in fields then fields[NatToString(i)] else Undefined
    case _ => Undefined
  }

  /** A thrown value: its `name` and, when present, its `message`. */
  datatype JsError = JsError(name: string, message: Option<string>)

  function Error(message: string): JsError {
    JsError("Error", Some(message))
  }

  function NullishText(v: Value): string
    requires IsNullish(v)
  {
    if v.Undefined? then "undefined" else "null"
  }

  /** The TypeError the engine throws for `v.key` when `v` is nullish (the
      wording is the V8 engine's). */
  function ReadError(v: Value, key: string): JsError
    requires IsNullish(v)
  {
    JsError("TypeError", Some("Cannot read properties of " + NullishText(v) + " (reading '" + key + "')"))
  }

  /** `v.key` without optional chaining: throws on a nullish value, otherwise
      behaves as `v?.key`. */
  function Member(v: Value, key: string): (r: Result<Value, JsError>)
    ensures r.Err? <==> IsNullish(v)
    ensures r.Ok? ==> r.value == Get(v, key)
  {
    if IsNullish(v) then Err(ReadError(v, key)) else Ok(Get(v, key))
  }

  /** `v[i]` without optional chaining. */
  function Element(v: Value, i: nat): (r: Result<Value, JsError>)
    ensures r.Err? <==> IsNullish(v)
    ensures r.Ok? ==> r.value == At(v, i)
  {
    if IsNullish(v) then Err(ReadError(v, NatToString(i))) else Ok(At(v, i))
  }
}
