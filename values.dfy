/** Values shared by the data layer and the request dispatcher: the
    JavaScript values that records and bodies are made of, thrown errors,
    and the outcome of a call that may throw. */
module Values {

  datatype Option<+T> = None | Some(value: T)

  /** A JavaScript `Error`; only its `message` is observable. */
  datatype Error = Error(message: string)

  /** How a promise settles: with a value, or rejected with an error. */
  datatype Result<+T> = Success(value: T) | Failure(error: Error)

  /** A JSON-like JavaScript value. Numbers are integers here. */
  datatype Value =
    | Undefined
    | Null
    | Bool(b: bool)
    | Num(n: int)
    | Str(s: string)
    | Date(instant: int)
    | Arr(items: seq<Value>)
    | Obj(fields: map<string, Value>)

  /** JavaScript truthiness: `undefined`, `null`, `false`, `0` and `''` are
      falsy, every other value (dates, arrays and objects included) is truthy. */
  predicate Truthy(v: Value) {
    match v
    case Undefined => false
    case Null => false
    case Bool(b) => b
    case Num(n) => n != 0
    case Str(s) => s != ""
    case _ => true
  }

  /** JavaScript `a || b`. */
  function Or(a: Value, b: Value): (r: Value)
    ensures r == a || r == b
    ensures Truthy(r) <==> Truthy(a) || Truthy(b)
    ensures Truthy(a) ==> r == a
  {
    if Truthy(a) then a else b
  }

  /** Property access `v[key]` on an object; a missing property, or a
      property of a value that is not an object, is `undefined`. */
  function Prop(v: Value, key: string): (r: Value)
    ensures v.Obj? && key in v.fields ==> r == v.fields[key]
    ensures !(v.Obj? && key in v.fields) ==> r == Undefined
  {
    if v.Obj? && key in v.fields then v.fields[key] else Undefined
  }

  /** The rejection of `disconnect` and `saveImage` on a client that is not connected. */
  const NotConnected := Error("not connected")
}
