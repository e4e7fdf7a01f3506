/** JSON values as `json.dumps`/`json.loads` and `dataclasses.asdict` produce
    and consume them. Objects are maps: key order carries no meaning here. */
module Json {
  import opened Wrappers

  /** A Python `float`, carried through and never computed with: the number
      mantissa * 10^exponent as written in the input. */
  datatype Float = Float(mantissa: int, exponent: int)

  datatype Json =
    | JNull
    | JBool(b: bool)
    | JInt(i: int)
    | JFloat(f: Float)
    | JString(s: string)
    | JArray(items: seq<Json>)
    | JObject(fields: map<string, Json>)

  /** `obj[key]`: `None` where Python raises (not a dict, or the key is missing). */
  function Field(j: Json, key: string): (r: Option<Json>)
    ensures r.Some? <==> j.JObject? && key in j.fields
    ensures r.Some? ==> r.value == j.fields[key]
  {
    if j.JObject? && key in j.fields then Some(j.fields[key]) else None
  }

  function OptString(s: Option<string>): (r: Json) {
    match s
    case None => JNull
    case Some(v) => JString(v)
  }

  function OptInt(n: Option<int>): (r: Json) {
    match n
    case None => JNull
    case Some(v) => JInt(v)
  }

  function OptFloat(x: Option<Float>): (r: Json) {
    match x
    case None => JNull
    case Some(v) => JFloat(v)
  }

  function OptBool(b: Option<bool>): (r: Json) {
    match b
    case None => JNull
    case Some(v) => JBool(v)
  }

  function AsString(j: Json): (r: Option<string>) {
    if j.JString? then Some(j.s) else None
  }

  function AsFloat(j: Json): (r: Option<Float>) {
    if j.JFloat? then Some(j.f) else None
  }

  function AsBool(j: Json): (r: Option<bool>) {
    if j.JBool? then Some(j.b) else None
  }

  function AsOptString(j: Json): (r: Option<Option<string>>) {
    match j
    case JNull => Some(None)
    case JString(v) => Some(Some(v))
    case _ => None
  }

  function AsOptInt(j: Json): (r: Option<Option<int>>) {
    match j
    case JNull => Some(None)
    case JInt(v) => Some(Some(v))
    case _ => None
  }

  function AsOptFloat(j: Json): (r: Option<Option<Float>>) {
    match j
    case JNull => Some(None)
    case JFloat(v) => Some(Some(v))
    case _ => None
  }

  function AsOptBool(j: Json): (r: Option<Option<bool>>) {
    match j
    case JNull => Some(None)
    case JBool(v) => Some(Some(v))
    case _ => None
  }

  /** The Python-side decoders undo the encoders above. */
  lemma OptionalScalarsRoundTrip(s: Option<string>, n: Option<int>, x: Option<Float>, b: Option<bool>)
    ensures AsOptString(OptString(s)) == Some(s)
    ensures AsOptInt(OptInt(n)) == Some(n)
    ensures AsOptFloat(OptFloat(x)) == Some(x)
    ensures AsOptBool(OptBool(b)) == Some(b)
  {
  }
}
