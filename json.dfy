/** A JSON value as the Python code sees it after `json.loads`, together
    with the few dictionary and membership operations the code applies to
    such values (`d.get(k, default)`, `k in d`, truthiness). Objects are
    maps: the code never depends on the order of an object's keys. */
module Json {
  import opened Wrappers

  datatype Json =
    | Null
    | Bool(b: bool)
    | Int(i: int)
    | Str(s: string)
    | Arr(items: seq<Json>)
    | Obj(fields: map<string, Json>)

  /** Python truthiness of a JSON value. */
  predicate Truthy(j: Json) {
    match j
    case Null => false
    case Bool(b) => b
    case Int(i) => i != 0
    case Str(s) => s != ""
    case Arr(xs) => xs != []
    case Obj(m) => m != map[]
  }

  /** `a` occurs in `b` as a contiguous substring. */
  predicate IsInfix(a: string, b: string)
    decreases |b|
  {
    a <= b || (b != [] && IsInfix(a, b[1..]))
  }

  /** Python's `key in j` for a string `key`: a key of a dict, an element of
      a list, a substring of a string; any other value is not iterable and
      the expression raises. */
  function In(key: string, j: Json): (r: Result<bool>)
    ensures j.Obj? ==> r == Success(key in j.fields)
    ensures j.Arr? ==> r == Success(Str(key) in j.items)
    ensures r.Failure? <==> (j.Null? || j.Bool? || j.Int?)
  {
    match j
    case Obj(m) => Success(key in m)
    case Arr(xs) => Success(Str(key) in xs)
    case Str(s) => Success(IsInfix(key, s))
    case _ => Failure("argument of type '" + TypeName(j) + "' is not iterable")
  }

  /** Python's `j.get(key, default)`: defined on dicts only. */
  function Get(j: Json, key: string, default: Json): (r: Result<Json>)
    ensures r.Success? <==> j.Obj?
    ensures j.Obj? && key in j.fields ==> r == Success(j.fields[key])
    ensures j.Obj? && key !in j.fields ==> r == Success(default)
  {
    if j.Obj? then Success(if key in j.fields then j.fields[key] else default)
    else Failure("'" + TypeName(j) + "' object has no attribute 'get'")
  }

  /** Python's `j[key]` with a string `key`. A missing key raises
      `KeyError`, whose text is the key's repr; a list or a string refuses
      a string index (in the words of CPython 3.11 and later); any other
      value is not subscriptable. */
  function Index(j: Json, key: string): (r: Result<Json>)
    ensures r.Success? <==> j.Obj? && key in j.fields
    ensures r.Success? ==> r.value == j.fields[key]
    ensures j.Obj? && key !in j.fields ==> r == Failure("'" + key + "'")
    ensures j.Arr? ==> r == Failure("list indices must be integers or slices, not str")
  {
    match j
    case Obj(m) => if key in m then Success(m[key]) else Failure("'" + key + "'")
    case Arr(_) => Failure("list indices must be integers or slices, not str")
    case Str(_) => Failure("string indices must be integers, not 'str'")
    case _ => Failure("'" + TypeName(j) + "' object is not subscriptable")
  }

  function TypeName(j: Json): string {
    match j
    case Null => "NoneType"
    case Bool(_) => "bool"
    case Int(_) => "int"
    case Str(_) => "str"
    case Arr(_) => "list"
    case Obj(_) => "dict"
  }

  /** The three opaque parsers and the two printers the code calls:
      `json.loads`, `ast.literal_eval`, `json.dumps` and `str` (which an
      f-string applies to the values it interpolates). A parser answers
      `None` where the Python function raises; `loadsError(text)` is then
      the text of the `JSONDecodeError` that `json.loads(text)` raises
      (its cause and its line, column and character position). */
  datatype Codec = Codec(
    loads: string -> Option<Json>,
    loadsError: string -> string,
    literalEval: string -> Option<Json>,
    dumps: Json -> string,
    render: Json -> string)
}
