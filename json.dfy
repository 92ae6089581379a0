/** JavaScript values as they arrive from `JSON.parse` or from an untyped
    (`any`) parameter, with the three operations the engine performs on them:
    truthiness, optional property access `v?.key`, and conversion to text in a
    template literal. Numbers are integers in this model. */
module JsonValue {
  import opened Text
  import opened Wrappers

  datatype Json =
    | JsUndefined
    | JsNull
    | JsBool(b: bool)
    | JsNumber(n: int)
    | JsString(s: string)
    | JsArray(items: seq<Json>)
    | JsObject(fields: map<string, Json>)

  /** JavaScript truthiness: `undefined`, `null`, `false`, `0` and `""` are falsy. */
  predicate Truthy(v: Json)
  {
    match v
    case JsUndefined => false
    case JsNull => false
    case JsBool(b) => b
    case JsNumber(n) => n != 0
    case JsString(s) => s != ""
    case _ => true
  }

  /** `typeof v === "object"`, which holds for `null` and arrays too. */
  predicate IsObjectType(v: Json)
  {
    v.JsNull? || v.JsArray? || v.JsObject?
  }

  /** `v?.key`: the property of an object, `undefined` for anything else. */
  function Get(v: Json, key: string): (r: Json)
    ensures !v.JsObject? ==> r == JsUndefined
    ensures v.JsObject? && key in v.fields ==> r == v.fields[key]
    ensures v.JsObject? && key !in v.fields ==> r == JsUndefined
  {
    if v.JsObject? && key in v.fields then v.fields[key] else JsUndefined
  }

  /** `a || b`. */
  function Or(a: Json, b: Json): (r: Json)
    ensures Truthy(a) ==> r == a
    ensures !Truthy(a) ==> r == b
  {
    if Truthy(a) then a else b
  }

  /** `${v}`: how a value is rendered inside a template literal. */
  function TextOf(v: Json): string
    decreases v, 1
  {
    match v
    case JsUndefined => "undefined"
    case JsNull => "null"
    case JsBool(b) => if b then "true" else "false"
    case JsNumber(n) => IntText(n)
    case JsString(s) => s
    case JsArray(items) => JoinItems(v, items, |items|)
    case JsObject(_) => "[object Object]"
  }

  /** `items.slice(0, n).join(",")`, where `null` and `undefined` render as "". */
  function JoinItems(ghost whole: Json, items: seq<Json>, n: nat): string
    requires n <= |items| && whole == JsArray(items)
    decreases whole, 0, n
  {
    if n == 0 then ""
    else
      var e := items[n - 1];
      var t := if e.JsNull? || e.JsUndefined? then "" else TextOf(e);
      if n == 1 then t else JoinItems(whole, items, n - 1) + "," + t
  }

  /** An optional string field, `undefined` when absent. */
  function FromOption(o: Option<string>): Json
  {
    match o
    case Some(s) => JsString(s)
    case None => JsUndefined
  }
}
