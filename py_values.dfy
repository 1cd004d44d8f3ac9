/** Values the dubbing tool receives from its YAML and JSON loaders, and the
    two ways a Python call can end. */
module PyValues {

  /** One byte of an HTTP body. */
  newtype byte = x: int | 0 <= x < 256

  type Bytes = seq<byte>

  datatype Option<+T> = None | Some(value: T)

  /** A Python call either returns a value or lets an exception escape. */
  datatype Outcome<+T> = Returned(value: T) | Raised

  /** A loaded YAML or JSON value. Mapping keys are strings; floats and other
      scalar kinds are not modelled. */
  datatype Value =
    | Null
    | Bool(b: bool)
    | Int(i: int)
    | Str(s: string)
    | List(items: seq<Value>)
    | Mapping(entries: map<string, Value>)

  /** Python truthiness, `bool(v)`. */
  predicate Truthy(v: Value)
  {
    match v
    case Null => false
    case Bool(b) => b
    case Int(i) => i != 0
    case Str(s) => s != []
    case List(xs) => xs != []
    case Mapping(m) => m != map[]
  }
}
