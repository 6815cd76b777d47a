/** Python values as the cache layer sees them: the arguments of a call, the
    result of the wrapped function, and the outcome of a call that may raise. */
module Values {

  /** A Python value. Tuples and lists are both `List` (the serializer writes
      both as a JSON array); `Object` is any other object, such as the receiver
      of a method, with the truth value its class gives it (true unless the
      class defines `__bool__` or `__len__` to say otherwise). */
  datatype Value =
    | NoneValue
    | Bool(b: bool)
    | Int(i: int)
    | Str(s: string)
    | List(items: seq<Value>)
    | Dict(entries: seq<(string, Value)>)
    | Object(id: nat, truthy: bool)

  /** Keyword arguments in call order. */
  type Kwargs = seq<(string, Value)>

  /** Python's truthiness: `not v` holds exactly for these values. */
  predicate Falsy(v: Value) {
    match v
    case NoneValue => true
    case Bool(b) => !b
    case Int(i) => i == 0
    case Str(s) => s == ""
    case List(items) => items == []
    case Dict(entries) => entries == []
    case Object(_, truthy) => !truthy
  }

  /** An exception raised by code the cache layer calls (the wrapped function,
      the serializer or the deserializer), named by its class. */
  datatype Exception = Exception(kind: string)

  /** The outcome of a Python call: a returned value or a raised exception. */
  datatype Fallible<+T> = Ok(value: T) | Raise(exc: Exception)

  datatype Option<+T> = None | Some(value: T)
}
