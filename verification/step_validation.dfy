/** The `validate_step` predicate shared, letter for letter, by the
    Regression, Net Position and Session Reminder services: a detection
    passes when it is confident enough and both click coordinates resolve. */
module StepValidation {
  import opened Wrappers
  import opened Values

  const DefaultConfidenceThreshold: real := 0.5

  /** `detection.get(primary) or detection.get(fallback)`: the fallback is
      used whenever the primary coordinate is absent or falsy (0 included). */
  function Coordinate(d: map<string, Value>, primary: string, fallback: string): (r: Value)
    ensures Truthy(Get(d, primary, VNone)) ==> r == d[primary]
    ensures !Truthy(Get(d, primary, VNone)) ==> r == Get(d, fallback, VNone)
  {
    Or(Get(d, primary, VNone), Get(d, fallback, VNone))
  }

  /** The confidence as `>=` sees it, or the TypeError it raises. */
  function Confidence(d: map<string, Value>): (r: Result<real, string>)
    ensures "confidence" !in d ==> r == Success(0.0)
    ensures r.Success? <==> AsNumber(Get(d, "confidence", VReal(0.0))).Some?
    ensures r.Success? ==> r.value == AsNumber(Get(d, "confidence", VReal(0.0))).value
    ensures r.Failure? ==> r.error == "'>=' not supported between instances of '"
                                      + TypeName(Get(d, "confidence", VReal(0.0))) + "' and 'float'"
  {
    var c := Get(d, "confidence", VReal(0.0));
    match AsNumber(c)
    case Some(x) => Success(x)
    case None => Failure("'>=' not supported between instances of '" + TypeName(c) + "' and 'float'")
  }

  /** `validate_step(class_id, detection, threshold)`; the class id is not
      consulted. None is the absent detection. */
  function ValidateStep(detection: Option<map<string, Value>>, threshold: real): (r: Result<bool, string>)
    ensures detection.None? || detection.value == map[] ==> r == Success(false)
    ensures r.Failure? <==> detection.Some? && detection.value != map[] && Confidence(detection.value).Failure?
    ensures r == Success(true) <==>
      && detection.Some? && detection.value != map[]
      && Confidence(detection.value).Success? && Confidence(detection.value).value >= threshold
      && Coordinate(detection.value, "click_x", "mid_x") != VNone
      && Coordinate(detection.value, "click_y", "mid_y") != VNone
  {
    if detection.None? || detection.value == map[] then Success(false)
    else
      var d := detection.value;
      match Confidence(d)
      case Failure(e) => Failure(e)
      case Success(confidence) =>
        Success(confidence >= threshold
                && Coordinate(d, "click_x", "mid_x") != VNone
                && Coordinate(d, "click_y", "mid_y") != VNone)
  }

  /** A click point of 0 counts as missing: it falls back to the centre, and
      without one the step fails however confident the detection is. */
  lemma ZeroClickFallsBack(d: map<string, Value>, threshold: real)
    requires "click_x" in d && (d["click_x"] == VInt(0) || d["click_x"] == VReal(0.0))
    requires "mid_x" !in d
    ensures ValidateStep(Some(d), threshold) != Success(true)
  {
    assert Coordinate(d, "click_x", "mid_x") == VNone;
  }

  /** A present, non-zero click point is used as is, whatever the centre. */
  lemma ClickPointWins(d: map<string, Value>)
    requires "click_x" in d && Truthy(d["click_x"])
    ensures Coordinate(d, "click_x", "mid_x") == d["click_x"]
  {
  }

  /** Raising the threshold never turns a failing step into a passing one. */
  lemma MonotoneInThreshold(detection: Option<map<string, Value>>, lo: real, hi: real)
    requires lo <= hi
    requires ValidateStep(detection, hi) == Success(true)
    ensures ValidateStep(detection, lo) == Success(true)
  {
  }
}
