/** The Satellite Tracking Management page: the generic manager of tracking
    records (a satellite seen by a ground station at a time and position)
    and its tiles of distinct satellites and stations. */
module SatelliteTracking {
  import opened Js
  import opened Counting
  import opened EntityPanel

  const Collection := "/satellite_tracking/"

  function Template(): Record {
    map["track_id" := Null, "satellite_id" := Str(""), "station_id" := Str(""), "timestamp" := Str(""),
        "latitude" := Str(""), "longitude" := Str(""), "altitude_km" := Str("")]
  }

  predicate IsIdField(name: string) {
    name == "satellite_id" || name == "station_id"
  }

  predicate IsCoordinate(name: string) {
    name == "latitude" || name == "longitude" || name == "altitude_km"
  }

  /** The two ids hold `parseInt(value) || ''`, the three coordinates
      `parseFloat(value) || ''` (`parsedFloat` is that parse), anything else
      the raw text. */
  function Coerce(name: string, value: string, parsedFloat: Option<real>): (v: Value)
    ensures IsIdField(name) ==> v == IntOrEmpty(value)
    ensures IsCoordinate(name) ==> v == NumberOrEmpty(parsedFloat)
    ensures !IsIdField(name) && !IsCoordinate(name) ==> v == Str(value)
  {
    if IsIdField(name) then IntOrEmpty(value)
    else if IsCoordinate(name) then NumberOrEmpty(parsedFloat)
    else Str(value)
  }

  /** The fields the required-field guard looks at. */
  const Required: set<string> := {"satellite_id", "station_id", "timestamp"}

  /** Satellite, station and timestamp must not be `''`. */
  predicate Submittable(d: Record): (ok: bool)
    ensures ok ==> forall k :: k in Required ==> Get(d, k) != Str("")
    ensures (forall k :: k in Required ==> Truthy(Get(d, k))) ==> ok
  {
    Get(d, "satellite_id") != Str("") && Get(d, "station_id") != Str("") && Get(d, "timestamp") != Str("")
  }

  const DataKeys: set<string> := {"satellite_id", "station_id", "timestamp", "latitude", "longitude", "altitude_km"}

  /** A falsy coordinate is sent as `null`; the other fields as they are. */
  function BodyField(d: Record, k: string): Value {
    if IsCoordinate(k) then Or(Get(d, k), Null) else Get(d, k)
  }

  function Body(d: Record): (b: Record)
    ensures "track_id" !in b
    ensures forall k :: k in b <==> k in DataKeys && BodyField(d, k) != Undefined
    ensures forall k :: k in b ==> b[k] == BodyField(d, k)
  {
    Json(map k | k in DataKeys :: BodyField(d, k))
  }

  /** A coordinate typed as zero is stored as `''` and then sent as `null`:
      a position on the equator, the prime meridian or at altitude 0 can
      never be recorded through the form. */
  lemma ZeroCoordinateSentAsNull(d: Record, name: string, typed: string)
    requires IsCoordinate(name)
    ensures var body := Body(d[name := Coerce(name, typed, Some(0.0))]);
      name in body && body[name] == Null
  {
    var d' := d[name := Coerce(name, typed, Some(0.0))];
    assert name in DataKeys;
    assert BodyField(d', name) == Null;
  }

  /** A non-zero parsed coordinate reaches the body unchanged. */
  lemma CoordinateSent(d: Record, name: string, typed: string, x: real)
    requires IsCoordinate(name) && x != 0.0
    ensures var body := Body(d[name := Coerce(name, typed, Some(x))]);
      name in body && body[name] == Num(x)
  {
    var d' := d[name := Coerce(name, typed, Some(x))];
    assert name in DataKeys;
    assert BodyField(d', name) == Num(x);
  }

  /** `new Date(ts).toISOString().slice(0, 16)`, given the ISO text. */
  function LocalInputTime(iso: string): (t: string)
    ensures |t| <= 16 && t <= iso
    ensures |iso| >= 16 ==> |t| == 16
  {
    if |iso| < 16 then iso else iso[..16]
  }

  /** `handleEditClick`: the whole record, with a truthy timestamp cut to the
      `datetime-local` form and a falsy one replaced by `''`. */
  function EditDraft(r: Record, iso: string): (d: Record)
    ensures forall k :: k != "timestamp" ==> Get(d, k) == Get(r, k)
    ensures Truthy(Get(r, "timestamp")) ==> Get(d, "timestamp") == Str(LocalInputTime(iso))
    ensures !Truthy(Get(r, "timestamp")) ==> Get(d, "timestamp") == Str("")
  {
    r["timestamp" := if Truthy(Get(r, "timestamp")) then Str(LocalInputTime(iso)) else Str("")]
  }

  /** A record with no timestamp opens an edit draft that cannot be submitted;
      one with a timestamp and both ids keeps its id and PUTs to it. */
  lemma EditSubmittable(r: Record, iso: string)
    ensures !Truthy(Get(r, "timestamp")) ==> !Submittable(EditDraft(r, iso))
    ensures Get(r, "track_id") != Null ==>
              var req := WriteRequest(PanelConfig(), EditDraft(r, iso));
              req.verb == PUT && req.id == Some(Get(r, "track_id"))
  {
    assert Get(EditDraft(r, iso), "track_id") == Get(r, "track_id");
  }

  /** The page's manager: its endpoints, an empty draft whose id is `null`
      (so it is POSTed), and a body that never carries the id. */
  function PanelConfig(): (c: Config)
    ensures c.collection == Collection && c.listPath == Collection && c.refetchPath == Collection
    ensures Get(c.template, c.idField) == Null
    ensures forall d :: c.idField !in c.body(d)
  {
    Config("track_id", Collection, Collection, Collection, Template(),
           Coerce, Submittable, Body, rs => rs, EditDraft,
           "tracking records", "Tracking record not found.")
  }

  /** The tiles: records, distinct satellites, distinct stations. */
  datatype Summary = Summary(total: nat, satellites: nat, stations: nat)

  function SummaryOf(rs: seq<Record>): (s: Summary)
    ensures s.total == |rs|
    ensures s.satellites == DistinctCount(Column(rs, "satellite_id"))
    ensures s.stations == DistinctCount(Column(rs, "station_id"))
    ensures s.satellites <= s.total && s.stations <= s.total
    ensures s.total == 0 <==> s.satellites == 0
    ensures s.total == 0 <==> s.stations == 0
  {
    DistinctCountBounds(Column(rs, "satellite_id"));
    DistinctCountBounds(Column(rs, "station_id"));
    Summary(|rs|, DistinctCount(Column(rs, "satellite_id")), DistinctCount(Column(rs, "station_id")))
  }
}
