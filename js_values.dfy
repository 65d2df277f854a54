/** Plain JavaScript values as a request payload carries them, and the operators the handlers apply to them. */
module JsValues {
  import opened JsStrings

  /**
   * A JavaScript value. Numbers are integers; an object lists its own enumerable properties
   * in JavaScript's property order, each key once; a function is opaque.
   */
  datatype JsValue =
    | Undefined
    | Null
    | Bool(b: bool)
    | Number(n: int)
    | Str(s: string)
    | Array(items: seq<JsValue>)
    | Object(entries: seq<(string, JsValue)>)
    | Function

  /** JavaScript truthiness: `undefined`, `null`, `false`, `0` and `""` are falsy. */
  predicate Truthy(v: JsValue)
  {
    match v
    case Undefined => false
    case Null => false
    case Bool(b) => b
    case Number(n) => n != 0
    case Str(s) => s != []
    case _ => true
  }

  /** `v != null`: loose inequality with null, false only for `null` and `undefined`. */
  predicate NotNullish(v: JsValue)
  {
    !v.Undefined? && !v.Null?
  }

  /** `obj[key]` on an object's entries: the value of the entry with that key, or `undefined`. */
  function Property(entries: seq<(string, JsValue)>, key: string): JsValue
  {
    if entries == [] then Undefined
    else if entries[0].0 == key then entries[0].1
    else Property(entries[1..], key)
  }

  /**
   * `v?.main`-style access of a named property: `null` and `undefined` yield `undefined`,
   * an object its property; arrays, strings, numbers and booleans have no such own property.
   */
  function OptionalProperty(v: JsValue, key: string): JsValue
  {
    match v
    case Object(entries) => Property(entries, key)
    case _ => Undefined
  }

  /**
   * `Object.entries(v)`: an object's own entries; an array's or a string's indexed elements
   * with the index as key; nothing for numbers, booleans and functions.
   */
  function Entries(v: JsValue): (r: seq<(string, JsValue)>)
    requires NotNullish(v)
    ensures v.Object? ==> r == v.entries
    ensures v.Array? ==> |r| == |v.items| && forall i :: 0 <= i < |r| ==> r[i] == (NatToString(i), v.items[i])
    ensures v.Str? ==> |r| == |v.s| && forall i :: 0 <= i < |r| ==> r[i] == (NatToString(i), Str([v.s[i]]))
    ensures v.Bool? || v.Number? || v.Function? ==> r == []
  {
    match v
    case Object(entries) => entries
    case Array(items) => Indexed(items)
    case Str(s) => Indexed(Characters(s))
    case _ => []
  }

  /** A string's one-character strings, as indexing a string yields them. */
  function Characters(s: string): (r: seq<JsValue>)
    ensures |r| == |s|
    ensures forall i :: 0 <= i < |s| ==> r[i] == Str([s[i]])
  {
    seq(|s|, i requires 0 <= i < |s| => Str([s[i]]))
  }

  /** Elements paired with their decimal index, as `Object.entries` lists an indexed collection. */
  function Indexed(items: seq<JsValue>): (r: seq<(string, JsValue)>)
    ensures |r| == |items|
    ensures forall i :: 0 <= i < |r| ==> r[i] == (NatToString(i), items[i])
  {
    seq(|items|, i requires 0 <= i < |items| => (NatToString(i), items[i]))
  }

  /** `Object.prototype.toString.call(v)`, the built-in type tag of a value. */
  function TypeTag(v: JsValue): string
  {
    match v
    case Undefined => "[object Undefined]"
    case Null => "[object Null]"
    case Bool(_) => "[object Boolean]"
    case Number(_) => "[object Number]"
    case Str(_) => "[object String]"
    case Array(_) => "[object Array]"
    case Object(_) => "[object Object]"
    case Function => "[object Function]"
  }

  /** `typeof v === 'object'`: true for objects, arrays and, famously, `null`. */
  predicate TypeofObject(v: JsValue)
  {
    v.Object? || v.Array? || v.Null?
  }
}
