/** Python values as the core handles them: the scalars, lists and
    insertion-ordered dicts that end up in a workflow manifest or come in
    with a request body, and Python's truthiness test on them. */
module Values {

  /** A JSON-like Python value. `Real` stands for a Python float; an `Obj`
      is a dict, kept as its (key, value) pairs in insertion order. */
  datatype Value =
    | Null
    | Bool(b: bool)
    | Int(i: int)
    | Real(r: real)
    | Str(s: string)
    | List(items: seq<Value>)
    | Obj(fields: seq<(string, Value)>)

  /** Python's `bool(v)`: None, False, zero and empty containers are falsy. */
  predicate Truthy(v: Value) {
    match v
    case Null => false
    case Bool(b) => b
    case Int(i) => i != 0
    case Real(r) => r != 0.0
    case Str(s) => s != []
    case List(items) => items != []
    case Obj(fields) => fields != []
  }

  /** `isinstance(v, (float, str, int))`; a Python bool is an int. */
  predicate IsScalar(v: Value) {
    v.Bool? || v.Int? || v.Real? || v.Str?
  }
}
