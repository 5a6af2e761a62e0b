// JSON values as json.loads returns them, and the Python built-ins str(), int() and bool()
// applied to them (used by SessionState.from_dict).

module Json {
  import opened Wrappers
  import opened Decimal

  /** A decoded JSON value; JSON numbers with a fraction or an exponent are not modelled. */
  datatype Json =
    | JNull
    | JBool(boolean: bool)
    | JInt(number: int)
    | JStr(text: string)
    | JList(items: seq<Json>)
    | JObject(fields: map<string, Json>)

  /** dict.get(key, default). */
  function Get(d: map<string, Json>, key: string, default: Json): (v: Json)
    ensures key in d ==> v == d[key]
    ensures key !in d ==> v == default
  {
    if key in d then d[key] else default
  }

  /** str(v): None, True and False print as Python names, integers in decimal, strings as
      themselves. The repr of a list or dict is not modelled (ReprNotModelled). */
  function PyStr(v: Json): (r: Result<string>)
    ensures v.JStr? ==> r == Ok(v.text)
    ensures v.JInt? ==> r == Ok(IntToString(v.number)) && ParseInt(r.value) == Some(v.number)
    ensures v.JNull? ==> r == Ok("None")
    ensures v.JBool? ==> r == Ok(if v.boolean then "True" else "False")
    ensures r.Err? <==> v.JList? || v.JObject?
  {
    match v
    case JNull => Ok("None")
    case JBool(b) => Ok(if b then "True" else "False")
    case JInt(i) => IntToStringRoundTrip(i); Ok(IntToString(i))
    case JStr(s) => Ok(s)
    case _ => Err(ReprNotModelled)
  }

  /** int(v): integers unchanged, booleans as 1 and 0, strings parsed as decimal;
      None, lists and dicts raise TypeError (ConversionError). */
  function PyInt(v: Json): (r: Result<int>)
    ensures v.JInt? ==> r == Ok(v.number)
    ensures v.JNull? || v.JList? || v.JObject? ==> r == Err(ConversionError)
    ensures v.JBool? ==> r == Ok(if v.boolean then 1 else 0)
    ensures v.JStr? ==> (r.Ok? <==> ParseInt(v.text).Some?)
    ensures v.JStr? && ParseInt(v.text).Some? ==> r == Ok(ParseInt(v.text).value)
  {
    match v
    case JInt(i) => Ok(i)
    case JBool(b) => Ok(if b then 1 else 0)
    case JStr(s) =>
      (match ParseInt(s)
       case Some(i) => Ok(i)
       case None => Err(ConversionError))
    case _ => Err(ConversionError)
  }

  /** bool(v): Python truthiness. */
  predicate Truthy(v: Json) {
    match v
    case JNull => false
    case JBool(b) => b
    case JInt(i) => i != 0
    case JStr(s) => s != ""
    case JList(items) => items != []
    case JObject(fields) => fields != map[]
  }
}
