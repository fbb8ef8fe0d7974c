/** Python values the gateway passes around: JSON/YAML scalars (which also
    serve as dictionary keys) and the outcome of a call that may raise. */
module PyValue {
  import PyStr

  /** A JSON or YAML scalar. A float is carried as the text Python's `repr`
      gives it, which is what `str()` returns for it. */
  datatype Scalar =
    | Null
    | Bool(b: bool)
    | Int(i: int)
    | Float(repr: string)
    | Str(s: string)

  /** A JSON or YAML value: a scalar, a list or a dictionary with string
      keys. */
  datatype Value =
    | Leaf(v: Scalar)
    | List(items: seq<Value>)
    | Dict(entries: map<string, Value>)

  /** `str(v)` */
  function StrOf(v: Scalar): string
  {
    match v
    case Null => "None"
    case Bool(b) => if b then "True" else "False"
    case Int(i) => PyStr.IntToString(i)
    case Float(repr) => repr
    case Str(s) => s
  }

  /** The exceptions the modelled code can raise. */
  datatype PyError =
    | KeyError
    | IndexError
    | TypeError
    | ValueError
    | HttpError(status: int)

  /** The result of a Python call: a returned value or a raised exception. */
  datatype Outcome<+T> = Return(value: T) | Raise(error: PyError)

  datatype Option<+T> = None | Some(value: T)
}
