/** The rule-based collision predictor of the backend: the risk level and the
    expected lifespan of a satellite both follow from its orbit type alone. */
module CollisionModel {
  import opened Text
  import opened Js

  datatype Risk = High | Medium | Low

  function RiskName(r: Risk): string {
    match r
    case High => "High"
    case Medium => "Medium"
    case Low => "Low"
  }

  /** `satellite_data.get("orbit_type", "LEO").lower()`: a missing orbit type
      reads as "LEO"; a value that is not a string has no `lower` and raises,
      which is `None` here. */
  function OrbitKey(data: Record): (k: Option<string>)
    ensures "orbit_type" !in data ==> k == Some("leo")
    ensures "orbit_type" in data ==> (k.Some? <==> data["orbit_type"].Str?)
    ensures "orbit_type" in data && k.Some? ==> k.value == Lower(data["orbit_type"].s)
  {
    if "orbit_type" !in data then LowerLeo(); Some(Lower("LEO"))
    else if data["orbit_type"].Str? then Some(Lower(data["orbit_type"].s))
    else None
  }

  lemma LowerLeo()
    ensures Lower("LEO") == "leo"
  {
    assert LowerChar('L') == 'l' && LowerChar('E') == 'e' && LowerChar('O') == 'o';
    assert Lower("LEO") == [LowerChar('L'), LowerChar('E'), LowerChar('O')];
  }

  /** `predict_collision_risk`. */
  function CollisionRisk(data: Record): (r: Option<Risk>)
    ensures r.Some? <==> OrbitKey(data).Some?
    ensures r == Some(High) <==> OrbitKey(data) == Some("leo")
    ensures r == Some(Medium) <==> OrbitKey(data) == Some("meo")
    ensures r == Some(Low) <==> OrbitKey(data).Some? && OrbitKey(data).value !in {"leo", "meo"}
  {
    match OrbitKey(data)
    case None => None
    case Some(k) => Some(if k == "leo" then High else if k == "meo" then Medium else Low)
  }

  /** `predict_lifespan_months`. */
  function LifespanMonths(data: Record): (m: Option<nat>)
    ensures m.Some? <==> OrbitKey(data).Some?
    ensures m.Some? ==> m.value in {60, 120, 180}
    ensures m == Some(60) <==> OrbitKey(data) == Some("leo")
    ensures m == Some(120) <==> OrbitKey(data) == Some("meo")
  {
    match OrbitKey(data)
    case None => None
    case Some(k) => Some(if k == "leo" then 60 else if k == "meo" then 120 else 180)
  }

  /** The lifespan that goes with each risk level. */
  function MonthsFor(r: Risk): nat {
    match r
    case High => 60
    case Medium => 120
    case Low => 180
  }

  /** On the same input the two predictors agree: High with 60 months,
      Medium with 120 and Low with 180. */
  lemma PredictorsAgree(data: Record)
    ensures CollisionRisk(data).Some? <==> LifespanMonths(data).Some?
    ensures CollisionRisk(data).Some? ==> LifespanMonths(data).value == MonthsFor(CollisionRisk(data).value)
  {
  }

  /** A satellite without an orbit type is treated as LEO. */
  lemma MissingOrbitIsLeo(data: Record)
    requires "orbit_type" !in data
    ensures CollisionRisk(data) == Some(High) && LifespanMonths(data) == Some(60)
  {
  }

  /** Orbit types that agree up to the case of their letters get the same answers. */
  lemma CaseInsensitive(data: Record, a: string, b: string)
    requires |a| == |b| && forall i :: 0 <= i < |a| ==> LowerChar(a[i]) == LowerChar(b[i])
    ensures CollisionRisk(data["orbit_type" := Str(a)]) == CollisionRisk(data["orbit_type" := Str(b)])
    ensures LifespanMonths(data["orbit_type" := Str(a)]) == LifespanMonths(data["orbit_type" := Str(b)])
  {
    assert Lower(a) == Lower(b);
  }
}
