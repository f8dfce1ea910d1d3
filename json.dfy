/**
 * The loosely-shaped JSON values the API returns, with JavaScript's notion of
 * truthiness and property access written out explicitly.
 */
module JsonValue {

  /** `JNull` stands for both `null` and `undefined` (a missing property). */
  datatype Json =
    | JNull
    | JBool(b: bool)
    | JNum(n: real)
    | JStr(s: string)
    | JArr(items: seq<Json>)
    | JObj(fields: map<string, Json>)

  /** What `if (v)` and `v && ...` test: null, false, 0, "" are falsy; arrays and objects are truthy. */
  predicate Truthy(j: Json) {
    match j
    case JNull => false
    case JBool(b) => b
    case JNum(n) => n != 0.0
    case JStr(s) => s != ""
    case JArr(_) => true
    case JObj(_) => true
  }

  /** `j.key` (or `j?.key`): a missing key, or a value that is not an object, reads as undefined. */
  function Field(j: Json, key: string): Json {
    if j.JObj? && key in j.fields then j.fields[key] else JNull
  }

  /** The match / match-detail / stream objects the code checks with `x.id`. */
  predicate HasId(j: Json) {
    Truthy(Field(j, "id"))
  }
}
