/** The Satellites Management page: the generic manager of satellites (listed
    from the mission-joined endpoint, re-fetched from the plain one), its
    five-field edit draft, and the orbit-type tiles. */
module Satellites {
  import opened Js
  import opened Counting
  import opened EntityPanel

  const Collection := "/satellites/"
  const JoinedList := "/satellites/with-mission"

  function Template(): Record {
    map["satellite_id" := Null, "satellite_name" := Str(""), "launch_date" := Str(""),
        "orbit_type" := Str(""), "mission_id" := Str("")]
  }

  /** `mission_id` holds `parseInt(value) || ''`, every other field the raw text. */
  function Coerce(name: string, value: string): (v: Value)
    ensures name == "mission_id" ==> v == IntOrEmpty(value)
    ensures name != "mission_id" ==> v == Str(value)
  {
    if name == "mission_id" then IntOrEmpty(value) else Str(value)
  }

  /** The fields the required-field guard looks at. */
  const Required: set<string> := {"satellite_name", "mission_id"}

  /** A name is required and the mission must not be `''`. */
  predicate Submittable(d: Record): (ok: bool)
    ensures ok ==> forall k :: k in Required ==> Get(d, k) != Str("")
    ensures (forall k :: k in Required ==> Truthy(Get(d, k))) ==> ok
  {
    Truthy(Get(d, "satellite_name")) && Get(d, "mission_id") != Str("")
  }

  const DataKeys: set<string> := {"satellite_name", "launch_date", "orbit_type", "mission_id"}

  /** One property of the POST/PUT body: an empty date or orbit type is sent as `null`. */
  function BodyField(d: Record, k: string): Value {
    if k == "launch_date" || k == "orbit_type" then Or(Get(d, k), Null) else Get(d, k)
  }

  function Body(d: Record): (b: Record)
    ensures "satellite_id" !in b
    ensures forall k :: k in b <==> k in DataKeys && BodyField(d, k) != Undefined
    ensures forall k :: k in b ==> b[k] == BodyField(d, k)
  {
    Json(map k | k in DataKeys :: BodyField(d, k))
  }

  /** The date and orbit type are always sent, as a truthy value or `null`. */
  lemma BodyNullsEmpty(d: Record)
    ensures "launch_date" in Body(d) && "orbit_type" in Body(d)
    ensures forall k :: k in {"launch_date", "orbit_type"} ==> Body(d)[k] == Null || Truthy(Body(d)[k])
  {
    assert "launch_date" in DataKeys && "orbit_type" in DataKeys;
  }

  const EditKeys: set<string> := {"satellite_id", "satellite_name", "launch_date", "orbit_type", "mission_id"}

  function EditField(r: Record, k: string): Value {
    if k == "launch_date" || k == "orbit_type" then Or(Get(r, k), Str("")) else Get(r, k)
  }

  /** `handleEditClick`: only the five form fields of the (joined) record; an
      empty date or orbit type is shown as `''`. */
  function EditDraft(r: Record): (d: Record)
    ensures d.Keys == EditKeys
    ensures forall k :: k in d ==> d[k] == EditField(r, k)
  {
    map k | k in EditKeys :: EditField(r, k)
  }

  /** Editing a listed satellite and submitting it unchanged sends back its
      name and mission, and its date and orbit type exactly when they were set
      (`null` otherwise), to the satellite's own id. */
  lemma EditRoundTrip(r: Record)
    requires Get(r, "satellite_id") != Null
    ensures var req := WriteRequest(PanelConfig(), EditDraft(r));
      req.verb == PUT && req.id == Some(Get(r, "satellite_id"))
    ensures forall k :: k in {"launch_date", "orbit_type"} ==>
              k in Body(EditDraft(r)) && Body(EditDraft(r))[k] == Or(Get(r, k), Null)
    ensures forall k :: k in {"satellite_name", "mission_id"} && k in Body(EditDraft(r)) ==>
              Body(EditDraft(r))[k] == Get(r, k)
  {
    var d := EditDraft(r);
    var c := PanelConfig();
    assert c.idField == "satellite_id" && c.body == Body;
    assert "satellite_id" in EditKeys;
    assert Get(d, "satellite_id") == Get(r, "satellite_id");
    BodyNullsEmpty(d);
    forall k | k in {"launch_date", "orbit_type"} ensures k in Body(d) && Body(d)[k] == Or(Get(r, k), Null) {
      assert k in EditKeys;
    }
    forall k | k in {"satellite_name", "mission_id"} && k in Body(d) ensures Body(d)[k] == Get(r, k) {
      assert k in EditKeys;
    }
  }

  /** The page's manager: its endpoints, an empty draft whose id is `null`
      (so it is POSTed), and a body that never carries the id. */
  function PanelConfig(): (c: Config)
    ensures c.collection == Collection && c.listPath == JoinedList && c.refetchPath == Collection
    ensures Get(c.template, c.idField) == Null
    ensures forall d :: c.idField !in c.body(d)
  {
    Config("satellite_id", Collection, JoinedList, Collection, Template(),
           (name, value, _) => Coerce(name, value), Submittable, Body,
           rs => rs, (record, _) => EditDraft(record),
           "satellites", "Satellite not found.")
  }

  /** The "Other Orbit Types" tile: neither LEO, GEO nor MEO, and not `null`
      (so an absent orbit type counts as other). */
  predicate IsOtherOrbit(v: Value) {
    v != Str("LEO") && v != Str("GEO") && v != Str("MEO") && v != Null
  }

  function CountOther(rs: seq<Record>): (n: nat)
    ensures n <= |rs|
  {
    if rs == [] then 0
    else CountOther(rs[..|rs| - 1]) + (if IsOtherOrbit(Get(rs[|rs| - 1], "orbit_type")) then 1 else 0)
  }

  /** The tiles of the page. */
  datatype Summary = Summary(total: nat, leo: nat, geo: nat, meo: nat, other: nat)

  function SummaryOf(rs: seq<Record>): (s: Summary)
    ensures s.total == |rs|
    ensures s.leo == CountEq(rs, "orbit_type", Str("LEO")) && s.geo == CountEq(rs, "orbit_type", Str("GEO"))
    ensures s.meo == CountEq(rs, "orbit_type", Str("MEO")) && s.other == CountOther(rs)
    ensures s.leo + s.geo + s.meo + s.other + CountEq(rs, "orbit_type", Null) == s.total
  {
    OrbitTilesPartition(rs);
    Summary(|rs|, CountEq(rs, "orbit_type", Str("LEO")), CountEq(rs, "orbit_type", Str("GEO")),
            CountEq(rs, "orbit_type", Str("MEO")), CountOther(rs))
  }

  /** Every satellite falls in exactly one tile, or has a `null` orbit type. */
  lemma {:induction false} OrbitTilesPartition(rs: seq<Record>)
    ensures CountEq(rs, "orbit_type", Str("LEO")) + CountEq(rs, "orbit_type", Str("GEO"))
            + CountEq(rs, "orbit_type", Str("MEO")) + CountOther(rs) + CountEq(rs, "orbit_type", Null) == |rs|
  {
    if rs != [] {
      OrbitTilesPartition(rs[..|rs| - 1]);
    }
  }

  /** The table's orbit column: the orbit type, or 'N/A' when it is falsy. */
  function OrbitLabel(r: Record): (v: Value)
    ensures Truthy(Get(r, "orbit_type")) ==> v == Get(r, "orbit_type")
    ensures !Truthy(Get(r, "orbit_type")) ==> v == Str("N/A")
  {
    Or(Get(r, "orbit_type"), Str("N/A"))
  }
}
