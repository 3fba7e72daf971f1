/**
 * The JavaScript values that provider payloads are made of once parsed, with
 * the two language rules the normalisers depend on: truthiness, and reading
 * a property (which throws on `null` and `undefined`).
 */
module Json {
  import opened Wrappers

  /** Numbers are integers here; `NaN`, fractions and `-0` are not modelled. */
  datatype Value =
    | Undefined
    | Null
    | Bool(b: bool)
    | Number(n: int)
    | Str(s: string)
    | Arr(items: seq<Value>)
    | Obj(fields: map<string, Value>)

  /** JavaScript truthiness. */
  predicate Truthy(v: Value)
  {
    match v
    case Undefined => false
    case Null => false
    case Bool(b) => b
    case Number(n) => n != 0
    case Str(s) => s != ""
    case Arr(_) => true
    case Obj(_) => true
  }

  /** Reading a property of these values throws a TypeError. */
  predicate IsNullish(v: Value)
  {
    v.Undefined? || v.Null?
  }

  /** `v[key]` for a value that is neither `null` nor `undefined`. Arrays and
      strings answer `length`; every other missing property is `undefined`. */
  function Prop(v: Value, key: string): Value
    requires !IsNullish(v)
  {
    match v
    case Obj(fields) => if key in fields then fields[key] else Undefined
    case Arr(items) => if key == "length" then Number(|items|) else Undefined
    case Str(s) => if key == "length" then Number(|s|) else Undefined
    case _ => Undefined
  }
}
