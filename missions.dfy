/** The Missions Management page: the generic manager of missions, whose
    fetched records are given a frontend `id` mirroring `mission_id`; the
    status badge; the mission-success prediction panel; and the rule for
    showing the analytics section. */
module Missions {
  import opened Text
  import opened Js
  import opened Counting
  import opened EntityPanel

  const Collection := "/missions/"

  function Template(): Record {
    map["id" := Null, "mission_name" := Str(""), "launch_date" := Str(""), "mission_type" := Str(""),
        "status" := Str("")]
  }

  /** `data.map(m => ({...m, id: m.mission_id}))`. */
  function Remap(rs: seq<Record>): (out: seq<Record>)
    ensures |out| == |rs|
    ensures forall i :: 0 <= i < |rs| ==> Get(out[i], "id") == Get(rs[i], "mission_id")
    ensures forall i, k :: 0 <= i < |rs| && k != "id" ==> Get(out[i], k) == Get(rs[i], k)
  {
    seq(|rs|, i requires 0 <= i < |rs| => rs[i]["id" := Get(rs[i], "mission_id")])
  }

  /** Every record's frontend `id` is its `mission_id`. */
  predicate IdsMirrored(rs: seq<Record>) {
    forall r :: r in rs ==> Get(r, "id") == Get(r, "mission_id")
  }

  lemma RemapMirrors(rs: seq<Record>)
    ensures IdsMirrored(Remap(rs))
  {
    var out := Remap(rs);
    forall r | r in out ensures Get(r, "id") == Get(r, "mission_id") {
      var i :| 0 <= i < |out| && out[i] == r;
      assert Get(out[i], "mission_id") == Get(rs[i], "mission_id");
    }
  }

  /** On a mirrored list, the delete filter on the frontend `id` removes
      exactly what a filter on the backend `mission_id` would, and the
      survivors stay mirrored. */
  lemma {:induction false} DeleteByFrontendId(rs: seq<Record>, target: Value)
    requires IdsMirrored(rs)
    ensures Without(rs, "id", target) == Without(rs, "mission_id", target)
    ensures IdsMirrored(Without(rs, "id", target))
    decreases |rs|
  {
    if rs != [] {
      assert rs[0] in rs;
      assert forall r :: r in rs[1..] ==> r in rs;
      DeleteByFrontendId(rs[1..], target);
    }
  }

  const DataKeys: set<string> := {"mission_name", "launch_date", "mission_type", "status"}

  /** The fields the required-field guard looks at. */
  const Required: set<string> := {"mission_name", "status", "launch_date"}

  /** Name, status and launch date are required. */
  predicate Submittable(d: Record): (ok: bool)
    ensures ok ==> forall k :: k in Required ==> Get(d, k) != Str("")
    ensures (forall k :: k in Required ==> Truthy(Get(d, k))) ==> ok
  {
    Truthy(Get(d, "mission_name")) && Truthy(Get(d, "status")) && Truthy(Get(d, "launch_date"))
  }

  /** The JSON body of POST/PUT: four data fields, never an id. */
  function Body(d: Record): (b: Record)
    ensures "id" !in b && "mission_id" !in b
    ensures forall k :: k in b <==> k in DataKeys && Get(d, k) != Undefined
    ensures forall k :: k in b ==> b[k] == Get(d, k)
  {
    Json(map k | k in DataKeys :: Get(d, k))
  }

  /** The page's manager: its endpoints, an empty draft whose id is `null`
      (so it is POSTed), and a body that never carries the id. */
  function PanelConfig(): (c: Config)
    ensures c.collection == Collection && c.listPath == Collection && c.refetchPath == Collection
    ensures Get(c.template, c.idField) == Null
    ensures forall d :: c.idField !in c.body(d)
  {
    Config("id", Collection, Collection, Collection, Template(),
           (_, value, _) => Str(value), Submittable, Body,
           Remap, (record, _) => record,
           "missions", "Mission not found.")
  }

  /** Editing a mission from a fetched list and submitting it PUTs to that
      mission's `mission_id`. */
  lemma EditOfFetchedMissionPuts(data: seq<Record>, i: nat, iso: string)
    requires i < |data| && Get(data[i], "mission_id") != Null
    ensures var c := PanelConfig();
      var loaded := Remap(data);
      && c.normalize(data) == loaded
      && WriteRequest(c, c.editDraft(loaded[i], iso)) == Request(PUT, Collection, Some(Get(data[i], "mission_id")), Some(Body(data[i])))
  {
    var loaded := Remap(data);
    assert PanelConfig().normalize(data) == loaded;
    assert "id" !in DataKeys;
    assert Body(loaded[i]) == Body(data[i]) by {
      forall k | k in DataKeys ensures Get(loaded[i], k) == Get(data[i], k) { }
    }
  }

  /** `getStatusBadgeClass`: the badge class for a status, case-insensitively.
      `status.toLowerCase()` throws for anything but a string (a null status
      from the backend included), which is `None` here. */
  function StatusBadgeClass(status: Value): (cls: Option<string>)
    ensures cls.None? <==> !status.Str?
    ensures status.Str? ==> (Lower(status.s) == "active" <==> cls == Some("nasa-badge-active"))
    ensures status.Str? ==> (Lower(status.s) == "completed" <==> cls == Some("nasa-badge-completed"))
    ensures status.Str? ==> (Lower(status.s) == "planned" <==> cls == Some("nasa-badge-planned"))
    ensures status.Str? ==> (Lower(status.s) == "failed" <==> cls == Some("nasa-badge-failed"))
    ensures status.Str? ==>
              (Lower(status.s) !in {"active", "completed", "planned", "failed"} <==> cls == Some("nasa-badge"))
  {
    if !status.Str? then None
    else
      match Lower(status.s)
      case "active" => Some("nasa-badge-active")
      case "completed" => Some("nasa-badge-completed")
      case "planned" => Some("nasa-badge-planned")
      case "failed" => Some("nasa-badge-failed")
      case _ => Some("nasa-badge")
  }

  /** Statuses that differ only in ASCII letter case get the same badge. */
  lemma BadgeIgnoresCase(a: string, b: string)
    requires Lower(a) == Lower(b)
    ensures StatusBadgeClass(Str(a)) == StatusBadgeClass(Str(b))
  {
  }

  /** The analytics section is shown once loading is over, without an error,
      for a non-empty list. */
  predicate ShowAnalytics(s: PanelState) {
    !s.loading && s.error.None? && |s.records| > 0
  }

  /** A successful load of a non-empty list shows the analytics, a failed one never does. */
  lemma AnalyticsAfterLoad(before: PanelState, response: Response<seq<Record>>)
    requires before.error.None?
    ensures response.Ok? && response.data != [] ==>
              ShowAnalytics(before.(records := Remap(response.data), loading := false))
    ensures !response.Ok? ==>
              !ShowAnalytics(before.(error := Some(LoadFailureMessage(response)), loading := false))
  {
  }

  const PayloadMessage := "Please enter a payload mass."
  const PredictPath := "/ai/predict/mission_success"
  const PredictKeys: set<string> := {"payload_mass_kg", "mission_duration_days", "launch_vehicle_reliability", "num_stages"}

  /** `parseFloat` of the four inputs, NaN sent as `null`. */
  function PredictField(k: string, payload: Option<real>, duration: Option<real>, reliability: Option<real>,
                        stages: Option<real>): Value
  {
    if k == "payload_mass_kg" then FloatOrNull(payload)
    else if k == "mission_duration_days" then FloatOrNull(duration)
    else if k == "launch_vehicle_reliability" then FloatOrNull(reliability)
    else FloatOrNull(stages)
  }

  function PredictBody(payload: Option<real>, duration: Option<real>, reliability: Option<real>,
                       stages: Option<real>): Record
  {
    map k | k in PredictKeys :: PredictField(k, payload, duration, reliability, stages)
  }

  /** Every field of the mission-success prediction panel. */
  datatype PredictorState = PredictorState(
    payloadMass: string,
    missionDurationDays: string,
    launchVehicleReliability: string,
    numStages: string,
    successChance: Value,   // `null` until a prediction arrives
    predicting: bool,
    predictionError: Option<string>)

  class SuccessPredictor {
    var payloadMass: string
    var missionDurationDays: string
    var launchVehicleReliability: string
    var numStages: string
    var successChance: Value
    var predicting: bool
    var predictionError: Option<string>

    function View(): PredictorState
      reads this
    {
      PredictorState(payloadMass, missionDurationDays, launchVehicleReliability, numStages,
                     successChance, predicting, predictionError)
    }

    /** The results box is shown once a chance is known. */
    predicate ShowsResult()
      reads this
    {
      successChance != Null
    }

    constructor ()
      ensures View() == PredictorState("", "", "", "", Null, false, None)
    {
      payloadMass, missionDurationDays, launchVehicleReliability, numStages := "", "", "", "";
      successChance, predicting, predictionError := Null, false, None;
    }

    /** `handlePredictMissionSuccess`: with no payload mass it only shows a
        message; otherwise it posts the four parsed inputs (`payload`,
        `duration`, `reliability`, `stages` are `parseFloat` of the text
        fields) and shows the returned chance or the failure. */
    method Predict(response: Response<Record>, payload: Option<real>, duration: Option<real>,
                   reliability: Option<real>, stages: Option<real>) returns (sent: seq<Request>)
      modifies this
      ensures var before := old(View());
        if before.payloadMass == "" then
          sent == [] && View() == before.(predictionError := Some(PayloadMessage))
        else
          && sent == [Request(POST, PredictPath, None, Some(PredictBody(payload, duration, reliability, stages)))]
          && View() == if response.Ok? then
                         before.(predicting := false, predictionError := None,
                                 successChance := Get(response.data, "mission_success_chance"))
                       else
                         before.(predicting := false, predictionError := Some(FailureMessage(response)))
    {
      if payloadMass == "" {
        predictionError := Some(PayloadMessage);
        return [];
      }
      predicting := true;
      predictionError := None;
      sent := [Request(POST, PredictPath, None, Some(PredictBody(payload, duration, reliability, stages)))];
      if response.Ok? {
        successChance := Get(response.data, "mission_success_chance");
      } else {
        predictionError := Some(FailureMessage(response));
      }
      predicting := false;
    }
  }
}
