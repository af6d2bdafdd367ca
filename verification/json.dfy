/**
 * Parsed JSON values, as the route handlers and the mentor client see them
 * after `JSON.parse`. Numbers are modelled as finite reals: JSON text has
 * no NaN, and a literal too large for a double (which `JSON.parse` reads as
 * an infinity) is outside the model.
 */
module Json {
  import opened Wrappers
  import opened Text

  datatype Json =
    | JNull
    | JBool(b: bool)
    | JNum(n: real)
    | JStr(s: string)
    | JArr(items: seq<Json>)
    | JObj(fields: map<string, Json>)

  /** `v?.[key]`: a property of an object, `None` standing for `undefined`. */
  function Get(v: Option<Json>, key: string): (r: Option<Json>)
    ensures r.Some? ==> v.Some? && v.value.JObj? && key in v.value.fields && r.value == v.value.fields[key]
  {
    if v.Some? && v.value.JObj? && key in v.value.fields then Some(v.value.fields[key]) else None
  }

  /** JavaScript truthiness of a value, `undefined` included. */
  predicate Truthy(v: Option<Json>) {
    match v
    case None => false
    case Some(JNull) => false
    case Some(JBool(b)) => b
    case Some(JNum(n)) => n != 0.0
    case Some(JStr(s)) => s != ""
    case Some(JArr(_)) => true
    case Some(JObj(_)) => true
  }

  /** The string when `typeof v === "string"`. */
  function AsString(v: Option<Json>): (r: Option<string>)
    ensures r.Some? <==> v.Some? && v.value.JStr?
  {
    if v.Some? && v.value.JStr? then Some(v.value.s) else None
  }

  /**
   * `v?.[i]`: an element of an array, or the property named by the digits of
   * `i` of an object; `None` for anything else.
   */
  function At(v: Option<Json>, i: nat): (r: Option<Json>)
    ensures v.Some? && v.value.JArr? ==> (r.Some? <==> i < |v.value.items|)
    ensures v.Some? && v.value.JArr? && i < |v.value.items| ==> r == Some(v.value.items[i])
    ensures v.Some? && v.value.JObj? ==> r == Get(v, NatToString(i))
    ensures r.Some? ==> v.Some? && (v.value.JArr? || v.value.JObj?)
  {
    if v.Some? && v.value.JArr? then
      if i < |v.value.items| then Some(v.value.items[i]) else None
    else Get(v, NatToString(i))
  }

  /**
   * `String(v)`: strings as they are, booleans as words, arrays as their
   * elements' strings joined by commas (`null` elements as empty strings),
   * objects as `[object Object]`. The decimal text of a number is the
   * parameter `numText`.
   */
  function ToStr(v: Json, numText: real -> string): (r: string)
    ensures v.JStr? ==> r == v.s
    ensures v.JArr? && |v.items| == 0 ==> r == ""
    ensures v.JArr? && |v.items| == 1 && v.items[0].JStr? ==> r == v.items[0].s
  {
    match v
    case JNull => "null"
    case JBool(b) => if b then "true" else "false"
    case JNum(n) => numText(n)
    case JStr(s) => s
    case JObj(_) => "[object Object]"
    case JArr(items) =>
      Join(seq(|items|, k requires 0 <= k < |items| => if items[k].JNull? then "" else ToStr(items[k], numText)), ",")
  }
}
