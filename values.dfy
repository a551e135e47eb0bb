/** The JavaScript values the HTTP layer passes around: request parameters,
    bodies, action results, the authorization table's entries and errors. */
module Values {

  datatype Option<T> = None | Some(value: T)

  /** A JavaScript value. Numbers are modelled as integers. */
  datatype Value =
    | Undefined
    | Null
    | Bool(b: bool)
    | Num(n: int)
    | Str(s: string)
    | Arr(items: seq<Value>)
    | Obj(props: map<string, Value>)

  /** How a promise settles: it resolves with a value or rejects with an error. */
  datatype Settled<T> = Ok(value: T) | Thrown(error: Value)

  /** The error a property access or method call on `undefined` throws. */
  const TypeError: Value := Obj(map["name" := Str("TypeError")])

  /** JavaScript truthiness, as used by `!x`, `x || y` and `if (x)`. */
  predicate Truthy(v: Value)
  {
    match v
    case Undefined => false
    case Null => false
    case Bool(b) => b
    case Num(n) => n != 0
    case Str(s) => s != ""
    case Arr(_) => true
    case Obj(_) => true
  }

  /** `obj[key]` on a plain object: a missing key reads as `undefined`. */
  function Lookup(m: map<string, Value>, key: string): Value
  {
    if key in m then m[key] else Undefined
  }

  /** The property access `v.key` for the keys the session gate reads
      (`result` and `reason`): it throws on `undefined` and `null`, reads an
      object's own property, and reads `undefined` on any other value, none
      of which carries either key. */
  function Get(v: Value, key: string): Settled<Value>
  {
    match v
    case Undefined => Thrown(TypeError)
    case Null => Thrown(TypeError)
    case Obj(props) => Ok(Lookup(props, key))
    case _ => Ok(Undefined)
  }
}
