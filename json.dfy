/** The values a JSON request body can carry, as the Python handlers see them after
    `request.get_json()`, with the conversions the handlers apply to them: `str(v)`,
    `int(v)`, truthiness and `payload.get(key, default)`. */
module Json {
  import opened Wrappers
  import opened Text

  /** A decoded JSON value. Floats, lists and objects carry the text Python's str()
      gives them, which depends on float formatting this model does not reproduce. */
  datatype Json =
    | JNull
    | JBool(b: bool)
    | JInt(i: int)
    | JFloat(f: real, text: string)
    | JStr(s: string)
    | JList(items: seq<Json>, text: string)
    | JObject(keys: set<string>, text: string)

  /** A request body: a JSON object. */
  type Payload = map<string, Json>

  /** payload.get(key, default) */
  function Get(p: Payload, key: string, default: Json): (r: Json)
    ensures key in p ==> r == p[key]
    ensures key !in p ==> r == default
  {
    if key in p then p[key] else default
  }

  /** Python str(v). */
  function Str(v: Json): (r: string)
    ensures v.JStr? ==> r == v.s
  {
    match v
    case JNull => "None"
    case JBool(b) => if b then "True" else "False"
    case JInt(i) => IntToDecimal(i)
    case JFloat(_, t) => t
    case JStr(s) => s
    case JList(_, t) => t
    case JObject(_, t) => t
  }

  /** Python truthiness: None, False, 0, 0.0, "" and empty containers are false. */
  predicate Truthy(v: Json)
  {
    match v
    case JNull => false
    case JBool(b) => b
    case JInt(i) => i != 0
    case JFloat(f, _) => f != 0.0
    case JStr(s) => s != []
    case JList(items, _) => items != []
    case JObject(keys, _) => keys != {}
  }

  /** What sqlite3 can bind as a query parameter: null, booleans, floats, strings and the
      integers that fit in a signed 64-bit column; a list or a dict raises, and so does a
      larger integer (OverflowError). */
  predicate Bindable(v: Json)
  {
    !v.JList? && !v.JObject? && (v.JInt? ==> FitsInt64(v.i))
  }

  /** The integers sqlite3 stores: those of a signed 64-bit word. */
  predicate FitsInt64(i: int)
  {
    -0x8000_0000_0000_0000 <= i < 0x8000_0000_0000_0000
  }

  /** Truncation toward zero, as Python int(x) and JS Math.trunc do for a number. */
  function Trunc(x: real): (r: int)
    ensures x >= 0.0 ==> r as real <= x < r as real + 1.0
    ensures x < 0.0 ==> r as real - 1.0 < x <= r as real
  {
    if x >= 0.0 then x.Floor else -((-x).Floor)
  }

  /** Python int(v): None, lists and objects raise TypeError and a string that is not an
      optionally signed run of ASCII digits (surrounding whitespace allowed) raises
      ValueError; both are None here. */
  function ToInt(v: Json): (r: Option<int>)
    ensures v.JInt? ==> r == Some(v.i)
    ensures v.JNull? || v.JList? || v.JObject? ==> r == None
    ensures v.JBool? ==> r == Some(if v.b then 1 else 0)
    ensures v.JFloat? ==> r.Some? && (r.value as real - v.f) * v.f <= 0.0 && -1.0 < r.value as real - v.f < 1.0
    ensures v.JStr? ==> r == ParseInt(Strip(v.s))
  {
    match v
    case JNull => None
    case JBool(b) => Some(if b then 1 else 0)
    case JInt(i) => Some(i)
    case JFloat(f, _) => Some(Trunc(f))
    case JStr(s) => ParseInt(Strip(s))
    case JList(_, _) => None
    case JObject(_, _) => None
  }

  predicate AllDigits(s: string) { forall i :: 0 <= i < |s| ==> IsDigit(s[i]) }

  /** An optional sign followed by at least one decimal digit. */
  function ParseInt(s: string): (r: Option<int>)
    ensures r.Some? <==> (AllDigits(s) && s != []) || (|s| > 1 && (s[0] == '-' || s[0] == '+') && AllDigits(s[1..]))
  {
    if s != [] && AllDigits(s) then Some(DecimalValue(s))
    else if |s| > 1 && s[0] == '-' && AllDigits(s[1..]) then Some(0 - DecimalValue(s[1..]) as int)
    else if |s| > 1 && s[0] == '+' && AllDigits(s[1..]) then Some(DecimalValue(s[1..]))
    else None
  }

  /** Parsing the decimal text of an integer gives the integer back. */
  lemma ParseIntRoundTrip(i: int)
    ensures ParseInt(IntToDecimal(i)) == Some(i)
  {
    if i < 0 {
      var t := IntToDecimal(i);
      assert t[1..] == NatToDecimal(-i);
      DecimalRoundTrip(-i);
    } else {
      DecimalRoundTrip(i);
    }
  }
}
