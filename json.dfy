/** JavaScript values as they cross the tool-calling boundary: JSON-like data. */
module Json {
  import opened Wrappers
  import Text

  /** A JSON-serialisable JavaScript value; an object keeps its entries in insertion order. */
  datatype Json =
    | JNull
    | JBool(b: bool)
    | JNum(n: int)
    | JStr(s: string)
    | JArr(items: seq<Json>)
    | JObj(fields: seq<(string, Json)>)

  /** An object's own entries, in `Object.entries` order. */
  type Fields = seq<(string, Json)>

  /** No key appears twice among an object's entries. */
  predicate DistinctKeys(fields: Fields) {
    forall i, j :: 0 <= i < j < |fields| ==> fields[i].0 != fields[j].0
  }

  /** The value stored under `key` by the first entry with that key, or `None` (undefined) when there is none. */
  function Lookup(fields: Fields, key: string): Option<Json>
    decreases |fields|
  {
    if |fields| == 0 then None
    else if fields[0].0 == key then Some(fields[0].1)
    else Lookup(fields[1..], key)
  }

  /** Property access `v[key]`: defined on objects only; anything else yields undefined. */
  function Prop(v: Json, key: string): Option<Json> {
    if v.JObj? then Lookup(v.fields, key) else None
  }

  /** JavaScript truthiness (ToBoolean) of a possibly undefined value. */
  predicate Truthy(v: Option<Json>) {
    match v
    case None => false
    case Some(JNull) => false
    case Some(JBool(b)) => b
    case Some(JNum(n)) => n != 0
    case Some(JStr(s)) => s != ""
    case Some(JArr(_)) => true
    case Some(JObj(_)) => true
  }

  /** `typeof v === 'object' && v !== null`: objects and arrays. */
  predicate IsObjectLike(v: Json) {
    v.JArr? || v.JObj?
  }

  /** `v` holds a non-empty string: the test `v && typeof v === 'string'`. */
  predicate IsNonEmptyString(v: Option<Json>) {
    v.Some? && v.value.JStr? && v.value.s != ""
  }

  /** `String(v)`, as a template literal converts a value to text. */
  function ToJsString(v: Option<Json>): string {
    match v
    case None => "undefined"
    case Some(j) => JsonToString(j)
  }

  function JsonToString(j: Json): string
    decreases j
  {
    match j
    case JNull => "null"
    case JBool(b) => if b then "true" else "false"
    case JNum(n) => Text.IntToString(n)
    case JStr(s) => s
    case JArr(items) =>
      Text.Join(seq(|items|, i requires 0 <= i < |items| =>
        if items[i].JNull? then "" else JsonToString(items[i])), ",")
    case JObj(_) => "[object Object]"
  }

  /** The object `{ error: message }`. */
  function ErrorObject(message: string): (r: Json)
    ensures Prop(r, "error") == Some(JStr(message))
  {
    JObj([("error", JStr(message))])
  }

  /** The `in` operator: `key` is an own key of the object. */
  predicate HasKey(v: Json, key: string) {
    Prop(v, key).Some?
  }

  /** The object without its entries for `key`. */
  function Remove(fields: Fields, key: string): (r: Fields)
    ensures forall k :: Lookup(r, k) == if k == key then None else Lookup(fields, k)
    decreases |fields|
  {
    if |fields| == 0 then []
    else if fields[0].0 == key then Remove(fields[1..], key)
    else [fields[0]] + Remove(fields[1..], key)
  }

  /**
   * The assignment `obj[key] = value` as JSON sees it: an existing entry is overwritten in place, a new
   * key is appended, and assigning `undefined` removes the key. Afterwards `key` holds `value` and every
   * other key is unchanged. An object literal is a chain of these, starting from `[]`.
   */
  function Put(fields: Fields, key: string, value: Option<Json>): (r: Fields)
    ensures forall k :: Lookup(r, k) == if k == key then value else Lookup(fields, k)
    decreases |fields|
  {
    if value.None? then Remove(fields, key)
    else if |fields| == 0 then [(key, value.value)]
    else if fields[0].0 == key then [(key, value.value)] + Remove(fields[1..], key)
    else [fields[0]] + Put(fields[1..], key, value)
  }

  /** The conditional assignment `if (value) obj[key] = value`. */
  function PutIfTruthy(fields: Fields, key: string, value: Option<Json>): (r: Fields)
    ensures forall k :: Lookup(r, k) == if k == key && Truthy(value) then value else Lookup(fields, k)
  {
    if Truthy(value) then Put(fields, key, value) else fields
  }

  /**
   * The members every plain object inherits from `Object.prototype`. Indexing a plain object
   * table with one of these names finds the inherited member, a truthy value, rather than nothing.
   */
  const InheritedMembers: seq<string> := [
    "constructor", "hasOwnProperty", "isPrototypeOf", "propertyIsEnumerable", "toLocaleString",
    "toString", "valueOf", "__defineGetter__", "__defineSetter__", "__lookupGetter__",
    "__lookupSetter__", "__proto__"]
}
