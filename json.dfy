/**
 * JavaScript values as they arrive from JSON: the `typeof`/truthiness tests, optional
 * property reads (`v?.key`), `String(v)` and object spread, which the site's code applies
 * to untyped CMS replies.
 */
module Json {
  import opened Wrappers
  import opened Strings

  /** A JSON-like JavaScript value; objects are key-to-value maps, numbers are integers. */
  datatype Value =
    | Undefined
    | Null
    | Bool(b: bool)
    | Num(n: int)
    | Str(s: string)
    | Arr(items: seq<Value>)
    | Obj(fields: map<string, Value>)

  /** `Boolean(v)`. */
  predicate Truthy(v: Value) {
    match v
    case Undefined => false
    case Null => false
    case Bool(b) => b
    case Num(n) => n != 0
    case Str(s) => s != ""
    case Arr(_) => true
    case Obj(_) => true
  }

  /** `a || b`. */
  function Or(a: Value, b: Value): (r: Value)
    ensures Truthy(a) ==> r == a
    ensures !Truthy(a) ==> r == b
  {
    if Truthy(a) then a else b
  }

  /** `typeof v === "object"` (true for `null` and for arrays). */
  predicate IsObjectType(v: Value) {
    v.Null? || v.Arr? || v.Obj?
  }

  /** `v === null || v === undefined`, the test behind `??`. */
  predicate Nullish(v: Value) {
    v.Undefined? || v.Null?
  }

  /** `a ?? b`. */
  function Coalesce(a: Value, b: Value): (r: Value)
    ensures !Nullish(a) ==> r == a
    ensures Nullish(a) ==> r == b
  {
    if Nullish(a) then b else a
  }

  /** `v?.[key]` for a named property: reading a missing key, or a key of a non-object, gives undefined. */
  function Get(v: Value, key: string): Value {
    if v.Obj? && key in v.fields then v.fields[key] else Undefined
  }

  /** `typeof v?.[key] === "string" ? v[key] : undefined`, as an option. */
  function GetString(v: Value, key: string): (r: Option<string>)
    ensures r.Some? <==> Get(v, key).Str?
    ensures r.Some? ==> Get(v, key) == Str(r.value)
  {
    if Get(v, key).Str? then Some(Get(v, key).s) else None
  }

  /** The value carried by an optional string: `undefined` or the string. */
  function OptionValue(o: Option<string>): (v: Value)
    ensures o.Some? <==> v.Str?
    ensures o.Some? ==> v.s == o.value
  {
    if o.Some? then Str(o.value) else Undefined
  }

  /** `String(v)`: arrays print as their comma-joined items, with `null`/`undefined` items empty. */
  function ToJsString(v: Value): string
    decreases v, 1
  {
    match v
    case Undefined => "undefined"
    case Null => "null"
    case Bool(b) => if b then "true" else "false"
    case Num(n) => IntToString(n)
    case Str(s) => s
    case Arr(items) => JoinItems(v, items)
    case Obj(_) => "[object Object]"
  }

  /** `items.join(",")` for the items of array `whole`. */
  function JoinItems(whole: Value, items: seq<Value>): string
    requires whole.Arr? && (forall k :: 0 <= k < |items| ==> items[k] in whole.items)
    decreases whole, 0, |items|
  {
    if items == [] then ""
    else
      var head := if Nullish(items[0]) then "" else ToJsString(items[0]);
      if |items| == 1 then head else head + "," + JoinItems(whole, items[1..])
  }

  /** `String(v)` of a string is that string; of an integer, its decimal digits. */
  lemma ToJsStringScalars(v: Value)
    ensures v.Str? ==> ToJsString(v) == v.s
    ensures v.Num? && v.n >= 0 ==> ToJsString(v) == NatToString(v.n)
    ensures v.Bool? ==> ToJsString(v) == (if v.b then "true" else "false")
  {
  }

  /** The own enumerable properties `{...v}` copies; the index keys of an array are not modelled. */
  function OwnEntries(v: Value): map<string, Value> {
    if v.Obj? then v.fields else map[]
  }

  /** `{...base, ...v}`: the properties of `v` override those of `base`. */
  function Spread(base: map<string, Value>, v: Value): (r: map<string, Value>)
    ensures r.Keys == base.Keys + OwnEntries(v).Keys
    ensures forall k :: k in OwnEntries(v) ==> r[k] == OwnEntries(v)[k]
    ensures forall k :: k in base && k !in OwnEntries(v) ==> r[k] == base[k]
  {
    base + OwnEntries(v)
  }
}
