// The values the analysis report scripts handle: what Python's json module
// produces from SOAAP's JSON output, and the exceptions the scripts can
// raise while reading it.
module JsonValues {
  import opened Wrappers
  import opened Strings

  /** A decoded JSON value (numbers are integers here). */
  datatype Json =
    | Null
    | Bool(b: bool)
    | Num(n: int)
    | Str(s: string)
    | Arr(items: seq<Json>)
    | Obj(fields: map<string, Json>)

  /** The exceptions the scripts let escape. */
  datatype PyError = KeyError | TypeError | AttributeError | AssertionError

  /** Python's truth value of a decoded JSON value. */
  predicate Falsy(j: Json)
  {
    match j
    case Null => true
    case Bool(b) => !b
    case Num(n) => n == 0
    case Str(s) => s == []
    case Arr(xs) => xs == []
    case Obj(m) => m == map[]
  }

  /** `j[k]` for a string key: a dictionary lookup, KeyError when the key
      is missing, TypeError on anything that is not a dictionary. */
  function Field(j: Json, k: string): (r: Result<Json, PyError>)
    ensures r.Ok? <==> j.Obj? && k in j.fields
    ensures r.Ok? ==> r.value == j.fields[k]
    ensures r == Err(KeyError) <==> j.Obj? && k !in j.fields
  {
    match j
    case Obj(m) => if k in m then Ok(m[k]) else Err(KeyError)
    case _ => Err(TypeError)
  }

  /**
   * `k in j` for a string `k`: a dictionary has the key, a string contains
   * the word, a list holds the string; other values cannot be searched.
   */
  function HasField(j: Json, k: string): (r: Result<bool, PyError>)
    ensures r.Err? <==> !(j.Obj? || j.Str? || j.Arr?)
    ensures j.Obj? ==> r == Ok(k in j.fields)
    ensures j.Arr? ==> r == Ok(Str(k) in j.items)
  {
    match j
    case Obj(m) => Ok(k in m)
    case Str(s) => Ok(Contains(s, k))
    case Arr(xs) => Ok(Str(k) in xs)
    case _ => Err(TypeError)
  }

  /** `for x in j`, for a loop whose body indexes `x` with a string: a list
      yields its items; an empty string or dictionary yields nothing; a
      non-empty one yields strings, which fail at the first indexing; the
      other values are not iterable. */
  function Items(j: Json): (r: Result<seq<Json>, PyError>)
    ensures r.Ok? <==> j.Arr? || j == Str([]) || j == Obj(map[])
    ensures j.Arr? ==> r == Ok(j.items)
    ensures r.Ok? && !j.Arr? ==> r.value == []
  {
    match j
    case Arr(xs) => Ok(xs)
    case Str(s) => if s == [] then Ok([]) else Err(TypeError)
    case Obj(m) => if m == map[] then Ok([]) else Err(TypeError)
    case _ => Err(TypeError)
  }
}
