/** Plain JavaScript values as the server code handles them: strings, numbers,
    booleans, `null` and objects with own properties. `undefined` (a missing
    property) is `None`. */
module JsValues {
  import opened Wrappers
  import opened Text

  datatype JsValue =
    | JsString(s: string)
    | JsNumber(n: int)
    | JsBool(b: bool)
    | JsNull
    | JsObject(fields: map<string, JsValue>)

  type Object = map<string, JsValue>

  /** JavaScript truthiness of a possibly missing value. */
  predicate Truthy(v: Option<JsValue>) {
    match v
    case None => false
    case Some(JsString(s)) => s != ""
    case Some(JsNumber(n)) => n != 0
    case Some(JsBool(b)) => b
    case Some(JsNull) => false
    case Some(JsObject(_)) => true
  }

  /** `obj[key]`. */
  function Get(obj: Object, key: string): (r: Option<JsValue>)
    ensures r.Some? <==> key in obj
    ensures key in obj ==> r.value == obj[key]
  {
    if key in obj then Some(obj[key]) else None
  }

  /** `current?.[key]`: a missing, `null` or non-object value has no properties.
      JavaScript would also find a string's `length` and the members every object
      inherits from `Object.prototype`; the only lookups made through this are the
      fixed configuration paths, whose keys name none of those, so the difference
      is not observable there. */
  function Step(current: Option<JsValue>, key: string): (r: Option<JsValue>)
    ensures current.Some? && current.value.JsObject? ==> r == Get(current.value.fields, key)
    ensures !(current.Some? && current.value.JsObject?) ==> r.None?
  {
    match current
    case Some(JsObject(fields)) => Get(fields, key)
    case _ => None
  }

  /** `{...a, ...b}`: every property of both, `b` winning on a shared name. */
  function Spread(a: Object, b: Object): (r: Object)
    ensures r.Keys == a.Keys + b.Keys
    ensures forall k :: k in b ==> r[k] == b[k]
    ensures forall k :: k in a && k !in b ==> r[k] == a[k]
  {
    a + b
  }

  /** `String(v)`, as a template literal renders a possibly missing value. */
  function Render(v: Option<JsValue>): (r: string)
    ensures v.Some? && v.value.JsString? ==> r == v.value.s
    ensures Truthy(v) ==> r != ""
  {
    match v
    case None => "undefined"
    case Some(JsString(s)) => s
    case Some(JsNumber(n)) => IntToDecimal(n)
    case Some(JsBool(b)) => if b then "true" else "false"
    case Some(JsNull) => "null"
    case Some(JsObject(_)) => "[object Object]"
  }
}
