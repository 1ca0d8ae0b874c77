/**
 * The JavaScript values the panels receive from parsed AI output, with the
 * truthiness and property access the render helpers rely on.
 */
module JsValues {

  /** A parsed JSON value, plus `undefined`. Numbers are exact reals (no NaN). */
  datatype JsValue =
    | Undefined
    | Null
    | Bool(b: bool)
    | Num(n: real)
    | Str(s: string)
    | Arr(items: seq<JsValue>)
    | Obj(fields: map<string, JsValue>)

  /** JavaScript truthiness: `undefined`, `null`, `false`, `0` and `""` are falsy. */
  predicate Truthy(v: JsValue) {
    match v
    case Undefined => false
    case Null => false
    case Bool(b) => b
    case Num(n) => n != 0.0
    case Str(s) => s != ""
    case Arr(_) => true
    case Obj(_) => true
  }

  /** `typeof v === 'object' && v !== null` (arrays are objects too). */
  predicate IsObject(v: JsValue) {
    v.Arr? || v.Obj?
  }

  /** `v.key` (or `v?.key`): the field when `v` is an object that has it, otherwise `undefined`. */
  function Get(v: JsValue, key: string): (r: JsValue)
    ensures !v.Obj? ==> r == Undefined
    ensures v.Obj? && key !in v.fields ==> r == Undefined
    ensures v.Obj? && key in v.fields ==> r == v.fields[key]
  {
    if v.Obj? && key in v.fields then v.fields[key] else Undefined
  }

  /** A string-keyed JavaScript object literal built from a list of entries. */
  function ObjectOf(entries: seq<(string, JsValue)>): JsValue {
    Obj(EntriesMap(entries))
  }

  function EntriesMap(entries: seq<(string, JsValue)>): map<string, JsValue> {
    if |entries| == 0 then map[] else EntriesMap(entries[..|entries| - 1])[entries[|entries| - 1].0 := entries[|entries| - 1].1]
  }

  /**
   * What a render helper puts on screen: nothing, a value as it is, the
   * `String(...)` conversion of a value, or the `JSON.stringify` text of a value.
   * The conversions themselves are library calls and are kept symbolic.
   */
  datatype Rendered = Nothing | Verbatim(shown: JsValue) | StringOf(converted: JsValue) | JsonOf(serialized: JsValue)
}
