/**
 * The few pieces of Python value semantics that the location handler relies on:
 * a decoded JSON payload value, its truthiness (`not v`), the expression `v + 1`,
 * and how a value behaves when it is used as a dictionary key.
 */
module PyValue {
  import opened Wrappers

  /** A JSON value after the Socket.IO server has decoded it into a Python object.
      Python's int and float are both `Num`: they compare and hash alike when equal. */
  datatype Value =
    | Null                             // None, also what `dict.get` yields for a missing key
    | Bool(b: bool)
    | Num(x: real)
    | Str(s: string)
    | List(items: seq<Value>)
    | Dict(fields: map<string, Value>)

  /** A decoded payload: the dictionary received with the event. */
  type Payload = map<string, Value>

  /** `data.get(name)`: the stored value, or None when the key is missing. */
  function Get(data: Payload, name: string): Value
  {
    if name in data then data[name] else Null
  }

  /** Python truthiness: None, False, zero, "" and empty containers are falsy. */
  predicate Truthy(v: Value)
  {
    match v
    case Null => false
    case Bool(b) => b
    case Num(x) => x != 0.0
    case Str(s) => s != ""
    case List(items) => items != []
    case Dict(fields) => fields != map[]
  }

  /** `v + 1`: numbers add, a bool counts as 0 or 1, anything else raises TypeError (None). */
  function PlusOne(v: Value): (r: Option<real>)
    ensures r.Some? <==> v.Num? || v.Bool?
    ensures v.Num? ==> r == Some(v.x + 1.0)
  {
    match v
    case Num(x) => Some(x + 1.0)
    case Bool(b) => Some(if b then 2.0 else 1.0)
    case _ => None
  }

  /** A dictionary key up to Python's key equality: `1`, `1.0` and `True` are one key. */
  datatype Key = NoneKey | NumKey(x: real) | StrKey(s: string)

  /** The key a value stands for in a dict; lists and dicts are unhashable (TypeError, None). */
  function KeyOf(v: Value): (r: Option<Key>)
    ensures r.Some? <==> !(v.List? || v.Dict?)
    ensures v.Str? ==> r == Some(StrKey(v.s))
  {
    match v
    case Null => Some(NoneKey)
    case Bool(b) => Some(NumKey(if b then 1.0 else 0.0))
    case Num(x) => Some(NumKey(x))
    case Str(s) => Some(StrKey(s))
    case _ => None
  }

  /** A truthy value that survives `+ 1` is a non-zero number or `True`. */
  lemma TruthyPlusOne(v: Value)
    requires Truthy(v) && PlusOne(v).Some?
    ensures v.Num? || v == Bool(true)
    ensures v.Num? ==> v.x != 0.0 && PlusOne(v).value != 1.0
    ensures v == Bool(true) ==> PlusOne(v) == Some(2.0)
  {
  }

  /** Instances of Python's key equality: `True` and `1`, `False` and `0` are one key; `"1"` and `1` are not. */
  lemma BoolAndNumberShareKey()
    ensures KeyOf(Bool(true)) == KeyOf(Num(1.0))
    ensures KeyOf(Bool(false)) == KeyOf(Num(0.0))
    ensures KeyOf(Str("1")) != KeyOf(Num(1.0))
  {
  }
}
