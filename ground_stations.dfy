/** The Ground Stations Management page: the generic manager of ground
    stations and its tile of distinct locations. */
module GroundStations {
  import opened Js
  import opened Counting
  import opened EntityPanel

  const Collection := "/ground-stations/"

  function Template(): Record {
    map["station_id" := Null, "station_name" := Str(""), "location" := Str(""), "contact_frequency" := Str("")]
  }

  /** `contact_frequency` holds `parseFloat(value) || ''` (`parsedFloat` is
      that parse), the other fields the raw text. */
  function Coerce(name: string, value: string, parsedFloat: Option<real>): (v: Value)
    ensures name == "contact_frequency" ==> v == NumberOrEmpty(parsedFloat)
    ensures name != "contact_frequency" ==> v == Str(value)
  {
    if name == "contact_frequency" then NumberOrEmpty(parsedFloat) else Str(value)
  }

  /** The fields the required-field guard looks at. */
  const Required: set<string> := {"station_name", "location"}

  /** Name and location are required; the frequency is optional. */
  predicate Submittable(d: Record): (ok: bool)
    ensures ok ==> forall k :: k in Required ==> Get(d, k) != Str("")
    ensures (forall k :: k in Required ==> Truthy(Get(d, k))) ==> ok
  {
    Truthy(Get(d, "station_name")) && Truthy(Get(d, "location"))
  }

  const DataKeys: set<string> := {"station_name", "location", "contact_frequency"}

  /** A falsy frequency is sent as `null`. */
  function BodyField(d: Record, k: string): Value {
    if k == "contact_frequency" then Or(Get(d, k), Null) else Get(d, k)
  }

  function Body(d: Record): (b: Record)
    ensures "station_id" !in b
    ensures forall k :: k in b <==> k in DataKeys && BodyField(d, k) != Undefined
    ensures forall k :: k in b ==> b[k] == BodyField(d, k)
  {
    Json(map k | k in DataKeys :: BodyField(d, k))
  }

  /** A submittable draft sends all three fields, the frequency as a truthy
      number or `null`. */
  lemma SubmittedBodyWhole(d: Record)
    requires Submittable(d)
    ensures Body(d).Keys == DataKeys
    ensures Body(d)["station_name"] == Get(d, "station_name") && Body(d)["location"] == Get(d, "location")
    ensures Body(d)["contact_frequency"] == Null || Truthy(Body(d)["contact_frequency"])
  {
    assert forall k :: k in DataKeys ==> BodyField(d, k) != Undefined;
  }

  /** The page's manager: its endpoints, an empty draft whose id is `null`
      (so it is POSTed), and a body that never carries the id. */
  function PanelConfig(): (c: Config)
    ensures c.collection == Collection && c.listPath == Collection && c.refetchPath == Collection
    ensures Get(c.template, c.idField) == Null
    ensures forall d :: c.idField !in c.body(d)
  {
    Config("station_id", Collection, Collection, Collection, Template(),
           Coerce, Submittable, Body, rs => rs, (record, _) => record,
           "ground stations", "Ground station not found.")
  }

  /** The tiles: stations, and distinct locations. */
  datatype Summary = Summary(total: nat, locations: nat)

  function SummaryOf(rs: seq<Record>): (s: Summary)
    ensures s.total == |rs| && s.locations == DistinctCount(Column(rs, "location"))
    ensures s.locations <= s.total
    ensures s.total == 0 <==> s.locations == 0
  {
    DistinctCountBounds(Column(rs, "location"));
    Summary(|rs|, DistinctCount(Column(rs, "location")))
  }
}
