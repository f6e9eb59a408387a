/**
 * Python objects as the patch configuration loader and the mock helpers see
 * them: `None`, `bool`, `int`, `str`, `list`, `tuple`, `dict` (entries in
 * insertion order) and any other object, known only by its type name.
 */
module PyValue {
  import opened Wrappers
  import opened Text

  datatype Value =
    | PyNone
    | PyBool(b: bool)
    | PyInt(n: int)
    | PyStr(s: string)
    | PyList(items: seq<Value>)
    | PyTuple(items: seq<Value>)
    | PyDict(entries: seq<(Value, Value)>)
    | PyObject(typeName: string)

  /** `bool(v)`: `None`, `False`, `0` and empty strings and containers are false. */
  predicate Truthy(v: Value)
  {
    match v
    case PyNone => false
    case PyBool(b) => b
    case PyInt(n) => n != 0
    case PyStr(s) => s != ""
    case PyList(items) => items != []
    case PyTuple(items) => items != []
    case PyDict(entries) => entries != []
    case PyObject(_) => true
  }

  /** The built-in types the configuration schemas name. */
  datatype PyType = StrType | BoolType | IntType | ListType | DictType

  /** `isinstance(v, t)`; `bool` is a subclass of `int`. */
  predicate IsInstance(v: Value, t: PyType)
  {
    match t
    case StrType => v.PyStr?
    case BoolType => v.PyBool?
    case IntType => v.PyInt? || v.PyBool?
    case ListType => v.PyList?
    case DictType => v.PyDict?
  }

  /** `v in [None, "", [], {}]`: the values a configuration entry may not hold. */
  predicate IsEmptyLiteral(v: Value)
  {
    v == PyNone || v == PyStr("") || v == PyList([]) || v == PyDict([])
  }

  /** `d.get(key)`: the value stored under `key`, the first entry winning. */
  function Get(entries: seq<(Value, Value)>, key: Value): (r: Option<Value>)
    ensures r.Some? <==> exists i :: 0 <= i < |entries| && entries[i].0 == key
    ensures r.Some? ==> exists i :: 0 <= i < |entries| && entries[i] == (key, r.value)
  {
    if entries == [] then None
    else if entries[0].0 == key then Some(entries[0].1)
    else
      var r := Get(entries[1..], key);
      assert forall i :: 1 <= i < |entries| ==> entries[i] == entries[1..][i - 1];
      r
  }

  /** `key in d`. */
  predicate HasKey(entries: seq<(Value, Value)>, key: Value)
  {
    Get(entries, key).Some?
  }

  /** `d.get(key, default)`. */
  function GetOr(entries: seq<(Value, Value)>, key: Value, default: Value): Value
  {
    Get(entries, key).UnwrapOr(default)
  }

  /** The keys of a dict, in order. */
  function Keys(entries: seq<(Value, Value)>): (r: seq<Value>)
    ensures |r| == |entries|
    ensures forall i :: 0 <= i < |entries| ==> r[i] == entries[i].0
  {
    if entries == [] then [] else [entries[0].0] + Keys(entries[1..])
  }

  /**
   * `repr(v)`. A string is shown between single quotes without escaping,
   * which is what Python prints for text holding no quote, backslash or
   * unprintable character; any other object shows its type name.
   */
  function Repr(v: Value): string
    decreases v
  {
    match v
    case PyNone => "None"
    case PyBool(b) => if b then "True" else "False"
    case PyInt(n) => IntToString(n)
    case PyStr(s) => "'" + s + "'"
    case PyList(items) => "[" + Join(", ", seq(|items|, i requires 0 <= i < |items| => Repr(items[i]))) + "]"
    case PyTuple(items) =>
      if |items| == 1 then "(" + Repr(items[0]) + ",)"
      else "(" + Join(", ", seq(|items|, i requires 0 <= i < |items| => Repr(items[i]))) + ")"
    case PyDict(entries) =>
      "{" + Join(", ", seq(|entries|, i requires 0 <= i < |entries| =>
                             Repr(entries[i].0) + ": " + Repr(entries[i].1))) + "}"
    case PyObject(typeName) => "<" + typeName + " object>"
  }

  /** `type(v).__name__`. */
  function TypeName(v: Value): string
  {
    match v
    case PyNone => "NoneType"
    case PyBool(_) => "bool"
    case PyInt(_) => "int"
    case PyStr(_) => "str"
    case PyList(_) => "list"
    case PyTuple(_) => "tuple"
    case PyDict(_) => "dict"
    case PyObject(t) => t
  }

  /** `str(v)`: a string is itself, anything else its `repr`. */
  function Str(v: Value): (r: string)
    ensures v.PyStr? ==> r == v.s
    ensures !v.PyStr? ==> r == Repr(v)
  {
    if v.PyStr? then v.s else Repr(v)
  }
}
