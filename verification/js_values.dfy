/** JavaScript values as the hooks see them: JSON-like data, the absent value
    `undefined`, and objects used as string-keyed bags. */
module JsValues {

  /** `null`/`undefined` versus a present value. */
  datatype Option<+T> = None | Some(value: T)

  /** A JavaScript value. Numbers are modelled as integers. */
  datatype Value =
    | Undefined
    | Null
    | Bool(b: bool)
    | Num(n: int)
    | Str(s: string)
    | Arr(items: seq<Value>)
    | Obj(fields: map<string, Value>)

  /** A plain JavaScript object used as a key/value bag. */
  type Bag = map<string, Value>

  /** JavaScript truthiness: `undefined`, `null`, `false`, `0` and `""` are falsy;
      every array and every object, even an empty one, is truthy. */
  predicate Truthy(v: Value)
  {
    match v
    case Undefined => false
    case Null => false
    case Bool(b) => b
    case Num(n) => n != 0
    case Str(s) => s != ""
    case Arr(_) => true
    case Obj(_) => true
  }

  /** Property access `bag[key]`: a missing key reads as `undefined`. */
  function Lookup(bag: Bag, key: string): (v: Value)
    ensures key in bag ==> v == bag[key]
    ensures key !in bag ==> v == Undefined
  {
    if key in bag then bag[key] else Undefined
  }

  /** `{...base, ...over}`: a shallow copy of `base` with every key of `over`
      written on top. */
  function Spread(base: Bag, over: Bag): (r: Bag)
    ensures r.Keys == base.Keys + over.Keys
    ensures forall k :: k in over ==> r[k] == over[k]
    ensures forall k :: k in base && k !in over ==> r[k] == base[k]
  {
    base + over
  }
}
