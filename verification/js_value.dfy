/** JavaScript values as the client handles them: what `JSON.parse` yields,
    what the API layer hands to views, and the browser objects (`File`,
    `FormData`) it forwards without looking inside. Numbers are integers. */
module JsValue {

  datatype Value =
    | Undefined
    | Null
    | Bool(b: bool)
    | Num(n: int)
    | Str(s: string)
    | Arr(items: seq<Value>)
    | Obj(fields: seq<(string, Value)>)   // properties in insertion order
    | File(handle: nat)                   // a `File` picked by the user
    | Form(entries: seq<(string, Value)>) // a `FormData` instance

  /** JavaScript truthiness: `undefined`, `null`, `false`, `0` and `""`
      are falsy; every object, array, file and form is truthy. */
  predicate Truthy(v: Value) {
    match v
    case Undefined => false
    case Null => false
    case Bool(b) => b
    case Num(n) => n != 0
    case Str(s) => |s| > 0
    case _ => true
  }

  /** The value stored under `key` in a property list: the first entry with
      that key, or `undefined` when there is none. */
  function Lookup(fields: seq<(string, Value)>, key: string): (r: Value)
    ensures r == Undefined || exists i :: 0 <= i < |fields| && fields[i] == (key, r)
    ensures (forall i :: 0 <= i < |fields| ==> fields[i].0 != key) ==> r == Undefined
  {
    if |fields| == 0 then Undefined
    else if fields[0].0 == key then fields[0].1
    else Lookup(fields[1..], key)
  }

  /** Property access `v.key`: only objects have named properties here;
      reading one from anything else gives `undefined`. */
  function Prop(v: Value, key: string): (r: Value)
    ensures !v.Obj? ==> r == Undefined
  {
    if v.Obj? then Lookup(v.fields, key) else Undefined
  }
}
