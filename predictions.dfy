/** The Predictions Management page: the generic manager of prediction
    records, the summary tiles, and the AI-powered prediction panel that asks
    the backend for a collision risk and a lifespan and can save the answer as
    a new prediction record. */
module Predictions {
  import opened Text
  import opened Js
  import opened Counting
  import opened EntityPanel

  const Collection := "/predictions/predictions/"

  /** The empty draft: `prediction_id` is `null`, every other field `''`. */
  function Template(): Record {
    map["prediction_id" := Null, "satellite_id" := Str(""), "status_prediction" := Str(""),
        "lifespan_months" := Str(""), "collision_risk" := Str("")]
  }

  /** `handleInputChange`: the two numeric fields hold `parseInt(value) || ''`,
      every other field the raw text. */
  function Coerce(name: string, value: string): (v: Value)
    ensures name == "satellite_id" || name == "lifespan_months" ==> v == IntOrEmpty(value)
    ensures name != "satellite_id" && name != "lifespan_months" ==> v == Str(value)
  {
    if name == "satellite_id" || name == "lifespan_months" then IntOrEmpty(value) else Str(value)
  }

  /** The fields the required-field guard looks at. */
  const Required: set<string> := {"satellite_id", "status_prediction", "lifespan_months", "collision_risk"}

  /** The required-field guard: satellite, status and risk must be truthy, the
      lifespan must not be `''` (a missing lifespan passes). */
  predicate Submittable(d: Record): (ok: bool)
    ensures ok ==> forall k :: k in Required ==> Get(d, k) != Str("")
    ensures (forall k :: k in Required ==> Truthy(Get(d, k))) ==> ok
  {
    Truthy(Get(d, "satellite_id")) && Truthy(Get(d, "status_prediction"))
    && Get(d, "lifespan_months") != Str("") && Truthy(Get(d, "collision_risk"))
  }

  /** The JSON body of POST/PUT: the four data fields, never the id. */
  function Body(d: Record): (b: Record)
    ensures "prediction_id" !in b
    ensures forall k :: k in b <==> k in DataKeys && Get(d, k) != Undefined
    ensures forall k :: k in b ==> b[k] == Get(d, k)
    ensures Submittable(d) ==> "satellite_id" in b && "status_prediction" in b && "collision_risk" in b
  {
    Json(map k | k in DataKeys :: Get(d, k))
  }

  /** The page's manager: its endpoints, an empty draft whose id is `null`
      (so it is POSTed), and a body that never carries the id. */
  function PanelConfig(): (c: Config)
    ensures c.collection == Collection && c.listPath == Collection && c.refetchPath == Collection
    ensures Get(c.template, c.idField) == Null
    ensures forall d :: c.idField !in c.body(d)
  {
    Config("prediction_id", Collection, Collection, Collection, Template(),
           (name, value, _) => Coerce(name, value), Submittable, Body,
           rs => rs, (record, _) => record,
           "prediction records", "Prediction record not found.")
  }

  /** The empty form is never sent, and a lifespan typed as "0" blocks it
      (`parseInt("0") || ''` is `''`) however the other fields are filled. */
  lemma {:induction false} EmptyAndZeroNotSubmittable(d: Record)
    ensures !Submittable(Template())
    ensures !Submittable(d["lifespan_months" := Coerce("lifespan_months", "0")])
  {
    assert ParseInt("0") == Some(0) by { ParseIntOfNatToString(0); }
  }

  /** Typing a satellite id as digits stores the number it denotes. */
  lemma {:induction false} SatelliteIdTyped(d: Record, n: nat)
    requires n > 0
    ensures Get(d["satellite_id" := Coerce("satellite_id", NatToString(n))], "satellite_id") == Num(n as real)
  {
    IntOrEmptyOfNatToString(n);
  }

  /** The summary tiles: total, then exact-match counts of High, Low and Medium risk. */
  datatype Summary = Summary(total: nat, high: nat, low: nat, medium: nat)

  function SummaryOf(rs: seq<Record>): (s: Summary)
    ensures s.total == |rs|
    ensures s.high + s.low + s.medium <= s.total
    ensures s.high == CountEq(rs, "collision_risk", Str("High"))
    ensures s.low == CountEq(rs, "collision_risk", Str("Low"))
    ensures s.medium == CountEq(rs, "collision_risk", Str("Medium"))
  {
    ThreeCountsBounded(rs, "collision_risk", Str("High"), Str("Low"), Str("Medium"));
    Summary(|rs|, CountEq(rs, "collision_risk", Str("High")), CountEq(rs, "collision_risk", Str("Low")),
            CountEq(rs, "collision_risk", Str("Medium")))
  }

  const SelectMessage := "Please select an orbit type and a satellite."
  const NothingToSaveMessage := "No prediction to save or satellite not selected."
  const PredictPath := "/ai/predict/satellite_collision"

  const PredictKeys: set<string> := {"satellite_id", "orbit_type", "launch_year", "age_at_prediction_months",
                                     "maintenance_cost_usd_per_year", "component_health_score"}

  /** One property of the AI request. The integer inputs go through
      `parseInt`; `maintenance` and `health` are the `parseFloat` results of
      their inputs. NaN is sent as `null`. */
  function PredictField(k: string, selected: string, orbitType: string, launchYear: string, ageMonths: string,
                        maintenance: Option<real>, health: Option<real>): Value
  {
    if k == "satellite_id" then IntOrNull(selected)
    else if k == "orbit_type" then Str(orbitType)
    else if k == "launch_year" then IntOrNull(launchYear)
    else if k == "age_at_prediction_months" then IntOrNull(ageMonths)
    else if k == "maintenance_cost_usd_per_year" then FloatOrNull(maintenance)
    else FloatOrNull(health)
  }

  /** The JSON body of the AI request: the six inputs, none of them ever dropped. */
  function PredictBody(selected: string, orbitType: string, launchYear: string, ageMonths: string,
                       maintenance: Option<real>, health: Option<real>): Record
  {
    map k | k in PredictKeys :: PredictField(k, selected, orbitType, launchYear, ageMonths, maintenance, health)
  }

  const DataKeys: set<string> := {"satellite_id", "status_prediction", "lifespan_months", "collision_risk"}

  /** One property of the record `handleSavePrediction` posts: the predicted
      risk doubles as the status. */
  function SavedField(k: string, selected: string, risk: Value, lifespan: Value): Value {
    if k == "satellite_id" then IntOrNull(selected)
    else if k == "lifespan_months" then lifespan
    else risk
  }

  /** The record `handleSavePrediction` posts; an `undefined` risk or lifespan
      would be dropped, which the guard rules out. */
  function SavedBody(selected: string, risk: Value, lifespan: Value): Record {
    Json(map k | k in DataKeys :: SavedField(k, selected, risk, lifespan))
  }

  /** Once the guard has passed, the saved record carries all four data
      fields; its risk and status are the predicted risk and its satellite id
      is `parseInt` of the selection. */
  lemma SavedBodyFields(selected: string, risk: Value, lifespan: Value)
    requires Truthy(risk) && Truthy(lifespan)
    ensures var b := SavedBody(selected, risk, lifespan);
      && b.Keys == DataKeys
      && b["satellite_id"] == IntOrNull(selected) && b["lifespan_months"] == lifespan
      && b["status_prediction"] == risk && b["collision_risk"] == risk
  {
    var fields := map k | k in DataKeys :: SavedField(k, selected, risk, lifespan);
    SavedFieldsDefined(selected, risk, lifespan);
    JsonOfDefined(fields);
    assert "satellite_id" in DataKeys && "lifespan_months" in DataKeys;
    assert "status_prediction" in DataKeys && "collision_risk" in DataKeys;
  }

  lemma SavedFieldsDefined(selected: string, risk: Value, lifespan: Value)
    requires Truthy(risk) && Truthy(lifespan)
    ensures forall k :: SavedField(k, selected, risk, lifespan) != Undefined
  {
  }

  /** A saved AI prediction passes the form's required-field guard whenever its
      satellite id parses to a non-zero number. */
  lemma SavedBodySubmittable(selected: string, risk: Value, lifespan: Value)
    requires Truthy(risk) && Truthy(lifespan) && ParseInt(selected).Some? && ParseInt(selected).value != 0
    ensures Submittable(SavedBody(selected, risk, lifespan))
  {
    SavedBodyFields(selected, risk, lifespan);
    var b := SavedBody(selected, risk, lifespan);
    assert Get(b, "satellite_id") == Num(ParseInt(selected).value as real);
    assert Get(b, "status_prediction") == risk && Get(b, "collision_risk") == risk;
    assert Get(b, "lifespan_months") == lifespan;
  }

  /** Every field of the AI prediction panel, as one value. */
  datatype AdvisorState = AdvisorState(
    satellites: seq<Record>,
    orbitType: string,
    selectedSatelliteId: string,
    launchYear: string,
    ageMonths: string,
    maintenanceCost: string,
    healthScore: string,
    predicting: bool,
    predictedRisk: Value,
    predictedLifespan: Value,
    predictionError: Option<string>,  // `''` and `null` both read as no message
    saving: bool)

  /** A prediction can be saved once there is a risk, a lifespan and a satellite. */
  predicate Savable(v: AdvisorState) {
    Truthy(v.predictedRisk) && Truthy(v.predictedLifespan) && v.selectedSatelliteId != ""
  }

  /** The POST that stores the shown prediction as a new record. */
  function SaveRequest(v: AdvisorState): Request {
    Request(POST, Collection, None, Some(SavedBody(v.selectedSatelliteId, v.predictedRisk, v.predictedLifespan)))
  }

  /** The requests of `handleSavePrediction`: none without a prediction, the
      POST, and after a successful POST the re-fetch of the list. */
  function SaveSent(v: AdvisorState, mutation: Response<()>): seq<Request> {
    if !Savable(v) then [] else if !mutation.Ok? then [SaveRequest(v)] else [SaveRequest(v), GetCollection(Collection)]
  }

  /** Only a POST and a re-fetch that both succeed replace the manager's list. */
  predicate SaveReplacesList(v: AdvisorState, mutation: Response<()>, refetch: Response<seq<Record>>) {
    Savable(v) && mutation.Ok? && refetch.Ok?
  }

  /** The panel after `handleSavePrediction`: the nothing-to-save message; the
      POST's failure; the re-fetch's failure; or, on success, the prediction
      and the selected satellite cleared. */
  function AfterSave(v: AdvisorState, mutation: Response<()>, refetch: Response<seq<Record>>): AdvisorState {
    if !Savable(v) then v.(predictionError := Some(NothingToSaveMessage))
    else if !mutation.Ok? then v.(saving := false, predictionError := Some(FailureMessage(mutation)))
    else if !refetch.Ok? then v.(saving := false, predictionError := Some(RefetchFailureMessage("prediction records", refetch)))
    else v.(saving := false, predictionError := None, predictedRisk := Str(""), predictedLifespan := Str(""), selectedSatelliteId := "")
  }

  /** A saved prediction cannot be saved twice: the cleared panel has nothing
      left to post. */
  lemma SavedOnce(v: AdvisorState, mutation: Response<()>, refetch: Response<seq<Record>>, again: Response<()>)
    requires SaveReplacesList(v, mutation, refetch)
    ensures !Savable(AfterSave(v, mutation, refetch))
    ensures SaveSent(AfterSave(v, mutation, refetch), again) == []
  {
  }

  /** A save that fails keeps the prediction and the selection, so it can be
      retried, and shows a message. */
  lemma FailedSaveCanRetry(v: AdvisorState, mutation: Response<()>, refetch: Response<seq<Record>>)
    requires Savable(v) && !SaveReplacesList(v, mutation, refetch)
    ensures Savable(AfterSave(v, mutation, refetch))
    ensures AfterSave(v, mutation, refetch).predictionError.Some?
    ensures AfterSave(v, mutation, refetch).predictedRisk == v.predictedRisk
  {
  }

  /** The AI prediction panel. It shares the page with the manager and writes
      its list when a prediction is saved. */
  class Advisor {
    const panel: Panel
    var satellites: seq<Record>
    var orbitType: string
    var selectedSatelliteId: string
    var launchYear: string
    var ageMonths: string
    var maintenanceCost: string
    var healthScore: string
    var predicting: bool
    var predictedRisk: Value
    var predictedLifespan: Value
    var predictionError: Option<string>
    var saving: bool

    function View(): AdvisorState
      reads this
    {
      AdvisorState(satellites, orbitType, selectedSatelliteId, launchYear, ageMonths, maintenanceCost,
                   healthScore, predicting, predictedRisk, predictedLifespan, predictionError, saving)
    }

    constructor ()
      ensures fresh(panel) && panel.config == PanelConfig() && panel.View() == InitialState(PanelConfig())
      ensures View() == AdvisorState([], "", "", "", "", "", "", false, Str(""), Str(""), None, false)
    {
      panel := new Panel(PanelConfig());
      satellites, orbitType, selectedSatelliteId := [], "", "";
      launchYear, ageMonths, maintenanceCost, healthScore := "", "", "", "";
      predicting, predictedRisk, predictedLifespan := false, Str(""), Str("");
      predictionError, saving := None, false;
    }

    /** The second mount fetch: the satellites offered in the selector. A
        failure is only logged. */
    method LoadSatellites(response: Response<seq<Record>>) returns (sent: Request)
      modifies this
      ensures sent == GetCollection("/satellites/")
      ensures View() == if response.Ok? then old(View()).(satellites := response.data) else old(View())
    {
      sent := GetCollection("/satellites/");
      if response.Ok? {
        satellites := response.data;
      }
    }

    /** The `onChange` of the satellite selector: it stores the raw text and nothing else. */
    method SelectSatellite(value: string)
      modifies this
      ensures View() == old(View()).(selectedSatelliteId := value)
    {
      selectedSatelliteId := value;
    }

    /** The `onChange` of the orbit-type selector: it stores the raw text and nothing else. */
    method SetOrbitType(value: string)
      modifies this
      ensures View() == old(View()).(orbitType := value)
    {
      orbitType := value;
    }

    /** The `onChange` of the launch-year input: it stores the raw text and nothing else. */
    method SetLaunchYear(value: string)
      modifies this
      ensures View() == old(View()).(launchYear := value)
    {
      launchYear := value;
    }

    /** The `onChange` of the age-at-prediction input: it stores the raw text and nothing else. */
    method SetAgeMonths(value: string)
      modifies this
      ensures View() == old(View()).(ageMonths := value)
    {
      ageMonths := value;
    }

    /** The `onChange` of the maintenance-cost input: it stores the raw text and nothing else. */
    method SetMaintenanceCost(value: string)
      modifies this
      ensures View() == old(View()).(maintenanceCost := value)
    {
      maintenanceCost := value;
    }

    /** The `onChange` of the component-health input: it stores the raw text and nothing else. */
    method SetHealthScore(value: string)
      modifies this
      ensures View() == old(View()).(healthScore := value)
    {
      healthScore := value;
    }

    /** `handlePredictCollisionRisk`: without an orbit type and a satellite it
        only shows a message; otherwise it posts the inputs and shows the
        returned risk and lifespan, or the failure. `maintenance` and `health`
        are `parseFloat` of the two text inputs. */
    method Predict(response: Response<Record>, maintenance: Option<real>, health: Option<real>)
      returns (sent: seq<Request>)
      modifies this
      ensures var before := old(View());
        if before.orbitType == "" || before.selectedSatelliteId == "" then
          sent == [] && View() == before.(predictionError := Some(SelectMessage))
        else
          && sent == [Request(POST, PredictPath, None,
                              Some(PredictBody(before.selectedSatelliteId, before.orbitType, before.launchYear,
                                               before.ageMonths, maintenance, health)))]
          && View() == if response.Ok? then
                         before.(predicting := false, predictionError := None,
                                 predictedRisk := Get(response.data, "collision_risk"),
                                 predictedLifespan := Get(response.data, "lifespan_months"))
                       else
                         before.(predicting := false, predictionError := Some(FailureMessage(response)))
    {
      if orbitType == "" || selectedSatelliteId == "" {
        predictionError := Some(SelectMessage);
        return [];
      }
      predicting := true;
      predictionError := None;
      sent := [Request(POST, PredictPath, None,
                       Some(PredictBody(selectedSatelliteId, orbitType, launchYear, ageMonths, maintenance, health)))];
      if response.Ok? {
        predictedRisk := Get(response.data, "collision_risk");
        predictedLifespan := Get(response.data, "lifespan_months");
      } else {
        predictionError := Some(FailureMessage(response));
      }
      predicting := false;
    }

    /** `handleSavePrediction`: needs a risk, a lifespan and a satellite. On a
        successful POST and re-fetch the manager's list is replaced and the
        prediction and selection are cleared; a failure of either leaves them
        and shows its message. Nothing else of the manager changes. */
    method Save(mutation: Response<()>, refetch: Response<seq<Record>>) returns (sent: seq<Request>)
      modifies this, panel`records
      ensures sent == SaveSent(old(View()), mutation)
      ensures View() == AfterSave(old(View()), mutation, refetch)
      ensures panel.records == if SaveReplacesList(old(View()), mutation, refetch) then refetch.data else old(panel.records)
    {
      if !Truthy(predictedRisk) || !Truthy(predictedLifespan) || selectedSatelliteId == "" {
        predictionError := Some(NothingToSaveMessage);
        return [];
      }
      var write := SaveRequest(View());
      saving := true;
      predictionError := None;
      if !mutation.Ok? {
        sent := [write];
        predictionError := Some(FailureMessage(mutation));
      } else {
        sent := [write, GetCollection(Collection)];
        if !refetch.Ok? {
          predictionError := Some(RefetchFailureMessage("prediction records", refetch));
        } else {
          panel.records := refetch.data;
          predictedRisk, predictedLifespan, selectedSatelliteId := Str(""), Str(""), "";
        }
      }
      saving := false;
    }
  }
}
