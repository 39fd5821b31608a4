/** JSON values as the browser code sees them after `JSON.parse`, with the
    two JavaScript notions the decisions depend on: truthiness and property
    access that throws on `null`. */
module Json {
  import opened Wrappers

  /** Numbers are integers here; fractions and NaN are not modelled. */
  datatype Json =
    | JNull
    | JBool(b: bool)
    | JNum(n: int)
    | JStr(s: string)
    | JArr(items: seq<Json>)
    | JObj(fields: map<string, Json>)

  /** What `v.key` evaluates to: a TypeError on `null`, `undefined` when the
      property is missing or `v` is not an object, else the property. */
  datatype Access = Throws | Undefined | Found(v: Json)

  function Get(v: Json, key: string): (a: Access)
    ensures a.Throws? <==> v.JNull?
    ensures a.Found? <==> v.JObj? && key in v.fields
    ensures a.Found? ==> a.v == v.fields[key]
  {
    match v
    case JNull => Throws
    case JObj(fields) => if key in fields then Found(fields[key]) else Undefined
    case _ => Undefined
  }

  /** JavaScript truthiness of a value. */
  predicate Truthy(v: Json) {
    match v
    case JNull => false
    case JBool(b) => b
    case JNum(n) => n != 0
    case JStr(s) => s != ""
    case JArr(_) => true
    case JObj(_) => true
  }

  /** Truthiness of a property read that did not throw. */
  predicate TruthyAccess(a: Access)
    requires !a.Throws?
  {
    a.Found? && Truthy(a.v)
  }

  /** `v.key === 'text'`. */
  predicate FieldIs(v: Json, key: string, text: string) {
    Get(v, key) == Found(JStr(text))
  }

  /** An object with the given string-valued `status` property. */
  function StatusObject(status: string): (v: Json)
    ensures FieldIs(v, "status", status)
  {
    JObj(map["status" := JStr(status)])
  }
}
