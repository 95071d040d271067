/** The Space Debris Management page: the generic manager of debris records
    and its risk-level tiles. */
module SpaceDebris {
  import opened Js
  import opened Counting
  import opened EntityPanel

  const Collection := "/space-debris/"

  function Template(): Record {
    map["debris_id" := Null, "description" := Str(""), "latitude" := Str(""), "longitude" := Str(""),
        "size_meters" := Str(""), "risk_level" := Str("")]
  }

  predicate IsNumeric(name: string) {
    name == "latitude" || name == "longitude" || name == "size_meters"
  }

  /** The three numbers hold `parseFloat(value) || ''` (`parsedFloat` is that
      parse), the other fields the raw text. */
  function Coerce(name: string, value: string, parsedFloat: Option<real>): (v: Value)
    ensures IsNumeric(name) ==> v == NumberOrEmpty(parsedFloat)
    ensures !IsNumeric(name) ==> v == Str(value)
  {
    if IsNumeric(name) then NumberOrEmpty(parsedFloat) else Str(value)
  }

  /** The fields the required-field guard looks at. */
  const Required: set<string> := {"description", "latitude", "longitude", "size_meters", "risk_level"}

  /** Description and risk level must be truthy, the three numbers not `''`. */
  predicate Submittable(d: Record): (ok: bool)
    ensures ok ==> forall k :: k in Required ==> Get(d, k) != Str("")
    ensures (forall k :: k in Required ==> Truthy(Get(d, k))) ==> ok
  {
    Truthy(Get(d, "description")) && Get(d, "latitude") != Str("") && Get(d, "longitude") != Str("")
    && Get(d, "size_meters") != Str("") && Truthy(Get(d, "risk_level"))
  }

  const DataKeys: set<string> := {"description", "latitude", "longitude", "size_meters", "risk_level"}

  /** The JSON body of POST/PUT: the five data fields as they are. */
  function Body(d: Record): (b: Record)
    ensures "debris_id" !in b
    ensures forall k :: k in b <==> k in DataKeys && Get(d, k) != Undefined
    ensures forall k :: k in b ==> b[k] == Get(d, k)
  {
    Json(map k | k in DataKeys :: Get(d, k))
  }

  /** A number typed as zero (or not a number) is stored as `''`, and the
      record can then not be submitted at all, whatever the other fields hold. */
  lemma ZeroBlocksSubmit(d: Record, name: string, typed: string, parsed: Option<real>)
    requires IsNumeric(name) && (parsed.None? || parsed.value == 0.0)
    ensures !Submittable(d[name := Coerce(name, typed, parsed)])
  {
  }

  /** A submittable draft always sends its description and risk level. A
      number missing from the draft (an edited record without it) passes the
      `=== ''` guard and is then left out of the body rather than rejected. */
  lemma SubmittedBody(d: Record)
    requires Submittable(d)
    ensures "description" in Body(d) && "risk_level" in Body(d)
    ensures forall k :: IsNumeric(k) ==> (k in Body(d) <==> Get(d, k) != Undefined)
  {
    assert "description" in DataKeys && "risk_level" in DataKeys;
    assert forall k :: IsNumeric(k) ==> k in DataKeys;
  }

  /** The page's manager: its endpoints, an empty draft whose id is `null`
      (so it is POSTed), and a body that never carries the id. */
  function PanelConfig(): (c: Config)
    ensures c.collection == Collection && c.listPath == Collection && c.refetchPath == Collection
    ensures Get(c.template, c.idField) == Null
    ensures forall d :: c.idField !in c.body(d)
  {
    Config("debris_id", Collection, Collection, Collection, Template(),
           Coerce, Submittable, Body, rs => rs, (record, _) => record,
           "debris records", "Debris record not found.")
  }

  /** The tiles: total, then exact-match counts of High, Medium and Low risk. */
  datatype Summary = Summary(total: nat, high: nat, medium: nat, low: nat)

  function SummaryOf(rs: seq<Record>): (s: Summary)
    ensures s.total == |rs|
    ensures s.high == CountEq(rs, "risk_level", Str("High"))
    ensures s.medium == CountEq(rs, "risk_level", Str("Medium"))
    ensures s.low == CountEq(rs, "risk_level", Str("Low"))
    ensures s.high + s.medium + s.low <= s.total
  {
    ThreeCountsBounded(rs, "risk_level", Str("High"), Str("Medium"), Str("Low"));
    Summary(|rs|, CountEq(rs, "risk_level", Str("High")), CountEq(rs, "risk_level", Str("Medium")),
            CountEq(rs, "risk_level", Str("Low")))
  }
}
