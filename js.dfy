/** The slice of JavaScript semantics the dashboard pages rely on: dynamic
    values and objects, truthiness, `||` defaults, `parseInt`, JSON bodies,
    and the outcomes of HTTP requests. */
module Js {
  import opened Text

  datatype Option<T> = None | Some(value: T)

  /** A JSON-compatible JavaScript value. Numbers are exact reals: NaN never
      reaches a stored record in this code, `-0` is not distinguished, and
      the rounding of IEEE doubles (integers above 2^53, long decimals) is
      not modelled. */
  datatype Value = Undefined | Null | Num(x: real) | Str(s: string) | Arr(items: seq<Value>)

  /** A plain JavaScript object; a property that is absent reads as `undefined`. */
  type Record = map<string, Value>

  function Get(r: Record, key: string): (v: Value)
    ensures key !in r ==> v == Undefined
  {
    if key in r then r[key] else Undefined
  }

  /** JavaScript truthiness: `undefined`, `null`, `0` and `''` are falsy; arrays are truthy. */
  predicate Truthy(v: Value) {
    match v
    case Undefined => false
    case Null => false
    case Num(x) => x != 0.0
    case Str(s) => s != ""
    case Arr(_) => true
  }

  /** The value of `a || b`. */
  function Or(a: Value, b: Value): (r: Value)
    ensures Truthy(a) ==> r == a
    ensures !Truthy(a) ==> r == b
  {
    if Truthy(a) then a else b
  }

  /** The object `JSON.stringify` actually sends: properties whose value is
      `undefined` are dropped, every other property is kept as it is. */
  function Json(r: Record): (body: Record)
    ensures forall k :: k in body <==> k in r && r[k] != Undefined
    ensures forall k :: k in body ==> body[k] == r[k]
  {
    map k | k in r && r[k] != Undefined :: r[k]
  }

  /** A record without `undefined` properties is sent unchanged. */
  lemma JsonOfDefined(r: Record)
    requires forall k :: k in r ==> r[k] != Undefined
    ensures Json(r) == r
  {
  }

  /** `parseInt(v) || ''` and `parseFloat(v) || ''` for a parse result `p`,
      where `None` stands for NaN: a zero or a non-number is stored as `''`. */
  function NumberOrEmpty(p: Option<real>): (v: Value)
    ensures v == Str("") <==> p.None? || p.value == 0.0
    ensures v != Str("") ==> v == Num(p.value) && Truthy(v)
  {
    if p.Some? && p.value != 0.0 then Num(p.value) else Str("")
  }

  /** `parseInt(s)` (radix 10): skip leading whitespace, read an optional sign
      and the longest run of decimal digits; no digits gives NaN (`None`). */
  function ParseInt(s: string): (r: Option<int>)
    ensures s == [] ==> r == None
    ensures s != [] && IsDigit(s[0]) ==> r.Some? && r.value >= 0
  {
    ParseSigned(TrimStart(s))
  }

  /** An optional sign and the longest run of digits after it. */
  function ParseSigned(t: string): Option<int> {
    var negative := t != [] && t[0] == '-';
    var unsigned := if t != [] && (t[0] == '-' || t[0] == '+') then t[1..] else t;
    var ds := DigitPrefix(unsigned);
    if ds == [] then None
    else if negative then Some(-(DigitsValue(ds) as int)) else Some(DigitsValue(ds))
  }

  /** The longest prefix of `s` made of decimal digits. */
  function DigitPrefix(s: string): (ds: string)
    ensures ds <= s
    ensures forall i :: 0 <= i < |ds| ==> IsDigit(s[i])
    ensures |ds| < |s| ==> !IsDigit(s[|ds|])
  {
    if s != [] && IsDigit(s[0]) then [s[0]] + DigitPrefix(s[1..]) else []
  }

  /** `parseInt` reads back what `String(n)` writes. */
  lemma {:induction false} ParseIntOfNatToString(n: nat)
    ensures ParseInt(NatToString(n)) == Some(n)
  {
    var s := NatToString(n);
    assert IsDigit(s[0]);
    assert !IsSpace(s[0]) && s[0] != '-' && s[0] != '+';
    assert TrimStart(s) == s;
    AllDigitsPrefix(s);
    DigitsValueOfNatToString(n);
  }

  lemma {:induction false} AllDigitsPrefix(s: string)
    requires forall i :: 0 <= i < |s| ==> IsDigit(s[i])
    ensures DigitPrefix(s) == s
    decreases |s|
  {
    if s != [] {
      AllDigitsPrefix(s[1..]);
    }
  }

  /** `parseInt(s) || ''` for the integer fields of the forms. */
  function IntOrEmpty(s: string): (v: Value)
    ensures v == Str("") <==> ParseInt(s) == None || ParseInt(s) == Some(0)
    ensures ParseInt(s).Some? && ParseInt(s).value != 0 ==> v == Num(ParseInt(s).value as real)
  {
    NumberOrEmpty(match ParseInt(s) case None => None case Some(n) => Some(n as real))
  }

  /** What `JSON.stringify(parseInt(s))` sends: the number, or `null` for NaN. */
  function IntOrNull(s: string): (v: Value)
    ensures ParseInt(s).None? ==> v == Null
    ensures ParseInt(s).Some? ==> v == Num(ParseInt(s).value as real)
  {
    match ParseInt(s) case None => Null case Some(n) => Num(n as real)
  }

  /** What `JSON.stringify(parseFloat(s))` sends for a parse result `p`: the number, or `null` for NaN. */
  function FloatOrNull(p: Option<real>): (v: Value)
    ensures p.None? <==> v == Null
    ensures p.Some? ==> v == Num(p.value)
  {
    match p case None => Null case Some(x) => Num(x)
  }

  /** Typing the decimal form of a positive integer into an integer field stores that integer. */
  lemma IntOrEmptyOfNatToString(n: nat)
    requires n > 0
    ensures IntOrEmpty(NatToString(n)) == Num(n as real)
  {
    ParseIntOfNatToString(n);
  }

  datatype Verb = GET | POST | PUT | DELETE

  /** A request to the backend origin: `path` is the collection path and, for
      item requests, `id` is the `${id}` segment appended to it. */
  datatype Request = Request(verb: Verb, path: string, id: Option<Value>, body: Option<Record>)

  function GetCollection(path: string): Request {
    Request(GET, path, None, None)
  }

  /** The outcome of one request: a 2xx with its JSON payload, a non-2xx
      status with the optional `detail` string of its JSON error body, or a
      rejected promise (no response) with its error message. */
  datatype Response<T> = Ok(data: T) | HttpError(status: nat, detail: Option<string>) | NetworkError(message: string)

  function HttpStatusMessage(status: nat): string {
    "HTTP error! status: " + NatToString(status)
  }

  /** The message of a failed mutation or search:
      `errorData.detail || \`HTTP error! status: ${status}\``, or the rejection's message. */
  function FailureMessage<T>(r: Response<T>): (m: string)
    requires !r.Ok?
    ensures r.HttpError? && r.detail.Some? && r.detail.value != "" ==> m == r.detail.value
    ensures r.HttpError? && (r.detail.None? || r.detail.value == "") ==> m == HttpStatusMessage(r.status)
    ensures r.NetworkError? ==> m == r.message
  {
    match r
    case HttpError(status, detail) =>
      if detail.Some? && detail.value != "" then detail.value else HttpStatusMessage(status)
    case NetworkError(message) => message
  }

  /** The message of a failed list fetch: the status only, the body is never read. */
  function LoadFailureMessage<T>(r: Response<T>): (m: string)
    requires !r.Ok?
    ensures r.HttpError? ==> m == HttpStatusMessage(r.status)
    ensures r.NetworkError? ==> m == r.message
  {
    match r
    case HttpError(status, _) => HttpStatusMessage(status)
    case NetworkError(message) => message
  }

  /** The message of a failed re-fetch after a successful mutation. */
  function RefetchFailureMessage<T>(noun: string, r: Response<T>): (m: string)
    requires !r.Ok?
    ensures r.HttpError? ==> m == "Failed to re-fetch " + noun + ": " + HttpStatusMessage(r.status)
    ensures r.NetworkError? ==> m == r.message
  {
    match r
    case HttpError(status, _) => "Failed to re-fetch " + noun + ": " + HttpStatusMessage(status)
    case NetworkError(message) => message
  }

  /** The values of one property across a list of records (`rs.map(r => r[key])`). */
  function Column(rs: seq<Record>, key: string): (vs: seq<Value>)
    ensures |vs| == |rs|
    ensures forall i :: 0 <= i < |rs| ==> vs[i] == Get(rs[i], key)
  {
    seq(|rs|, i requires 0 <= i < |rs| => Get(rs[i], key))
  }
}
