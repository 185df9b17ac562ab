/** The Python values that travel through the adapter: the entries of `config` and `params`,
    request payloads and decoded JSON bodies. */
module Values {
  import opened Results
  import Text

  /** A JSON-like Python value. `Dict` keys are strings; dict order is not kept. */
  datatype Value =
    | Null
    | Bool(b: bool)
    | Int(i: int)
    | Str(s: string)
    | List(items: seq<Value>)
    | Dict(entries: map<string, Value>)

  /** Python's `str(v)`, as used when a value is formatted into a URL path.
      Containers print their `repr`, which depends on insertion order, so they get no rendering here. */
  function PyStr(v: Value): (r: Option<string>)
    ensures r.Some? <==> !v.List? && !v.Dict?
    ensures v.Str? ==> r == Some(v.s)
    ensures v.Null? ==> r == Some("None")
    ensures v.Bool? ==> r == Some(if v.b then "True" else "False")
    ensures v.Int? ==> r == Some(Text.IntToDecimal(v.i))
    // a non-negative int prints as the decimal numeral that reads back as the same number
    ensures v.Int? && v.i >= 0 ==> Text.ParseDecimal(r.value) == Some(v.i)
  {
    match v
    case Null => Some("None")
    case Bool(b) => Some(if b then "True" else "False")
    case Int(i) =>
      if i >= 0 then Text.DecimalRoundTrip(i); Some(Text.IntToDecimal(i))
      else Some(Text.IntToDecimal(i))
    case Str(s) => Some(s)
    case List(_) => None
    case Dict(_) => None
  }
}
