/**
  The values the core sees after `json.loads`, and the Python values that the
  prompt builder checks with `isinstance`: None, booleans, numbers, strings,
  lists and dictionaries with string keys.
 */
module JsonValue {

  datatype Value =
    | Null
    | Bool(b: bool)
    | Int(i: int)
    | Float(x: real)
    | Str(s: string)
    | Arr(items: seq<Value>)
    | Obj(fields: map<string, Value>)

  /** The name Python's `type(v).__name__` gives, as used in error messages. */
  function TypeName(v: Value): (name: string)
    ensures name == "str" <==> v.Str?
    ensures name == "list" <==> v.Arr?
    ensures name == "dict" <==> v.Obj?
  {
    match v
    case Null => "NoneType"
    case Bool(_) => "bool"
    case Int(_) => "int"
    case Float(_) => "float"
    case Str(_) => "str"
    case Arr(_) => "list"
    case Obj(_) => "dict"
  }

  /** `key in v` for a dictionary `v`. */
  predicate HasKey(v: Value, key: string)
  {
    v.Obj? && key in v.fields
  }

  /** The outcome of a call that may raise: its value, or the text `str(e)` of the exception. */
  datatype Outcome<+T> = Ok(value: T) | Exn(message: string)
}
