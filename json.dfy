/**
 * Decoded JSON values and the Python built-ins the engine applies to them: `str()`, `int()`,
 * `bool()` and the `in` test of a payload.
 */
module JsonData {
  import opened Wrappers
  import opened Text
  import opened Models

  /** A value `json.loads` can return; numbers are Python ints or floats. */
  datatype Json =
    | JNull
    | JBool(b: bool)
    | JNum(n: Num)
    | JString(s: string)
    | JArray(items: seq<Json>)
    | JObject(fields: map<string, Json>)

  /** `str(v)`: a string is kept, `None`, booleans and ints are spelled as Python spells them;
      the text of floats, lists and dicts is not modelled. */
  function StrOf(v: Json): (r: Result<string, Exception>)
    ensures v.JString? ==> r == Ok(v.s)
    ensures r.Err? <==> (v.JNum? && v.n.RealV?) || v.JArray? || v.JObject?
  {
    match v
    case JString(s) => Ok(s)
    case JNull => Ok("None")
    case JBool(b) => Ok(if b then "True" else "False")
    case JNum(IntV(i)) => Ok(IntToString(i))
    case _ => Err(Unmodelled("str() of a float, list or dict"))
  }

  /** `int(v)`: a number is converted (a float truncated toward zero), a boolean is 0 or 1;
      `None`, lists and dicts raise; the parsing of numeric text is not modelled. */
  function IntOf(v: Json): (r: Result<int, Exception>)
    ensures v.JNum? ==> r == Ok(v.n.AsInt())
    ensures v.JBool? ==> r == Ok(if v.b then 1 else 0)
    ensures r.Err? <==> v.JNull? || v.JString? || v.JArray? || v.JObject?
  {
    match v
    case JNum(n) => Ok(n.AsInt())
    case JBool(b) => Ok(if b then 1 else 0)
    case JString(_) => Err(Unmodelled("int() of a string"))
    case _ => Err(TypeError("int() argument must be a string, a bytes-like object or a real number"))
  }

  /** `bool(v)`: Python truthiness. */
  predicate Truthy(v: Json) {
    match v
    case JNull => false
    case JBool(b) => b
    case JNum(n) => n.AsReal() != 0.0
    case JString(s) => s != ""
    case JArray(items) => items != []
    case JObject(fields) => fields != map[]
  }

  /** `key in v` for the container kinds `in` accepts; numbers, booleans and `None` raise. */
  function HasKey(v: Json, key: string): (r: Result<bool, Exception>)
    ensures v.JObject? ==> r == Ok(key in v.fields)
    ensures r.Err? <==> v.JNull? || v.JBool? || v.JNum?
  {
    match v
    case JObject(fields) => Ok(key in fields)
    case JArray(items) => Ok(JString(key) in items)
    case JString(s) => Ok(Contains(s, key))
    case _ => Err(TypeError("argument of type is not iterable"))
  }

  /** The keys of `keys` that `v` does not hold, in order; an error when `in` raises. */
  function MissingKeys(v: Json, keys: seq<string>): (r: Result<seq<string>, Exception>)
    ensures r.Err? <==> keys != [] && (v.JNull? || v.JBool? || v.JNum?)
    ensures r.Ok? ==> |r.value| <= |keys| && forall k :: k in r.value ==> k in keys && HasKey(v, k) == Ok(false)
    ensures v.JObject? ==> r.Ok? && forall k :: k in keys ==> (k in r.value <==> k !in v.fields)
    decreases |keys|
  {
    if keys == [] then Ok([])
    else
      var here := HasKey(v, keys[0]);
      if here.Err? then Err(here.error)
      else
        var rest := MissingKeys(v, keys[1..]);
        if rest.Err? then rest
        else if here.value then Ok(rest.value)
        else Ok([keys[0]] + rest.value)
  }
}
